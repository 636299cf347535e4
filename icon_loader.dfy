/**
 * `IconLoader`, the front-end for application and APK icons: the uri (a
 * package name or APK path) is also the cache key. The singleton lives while
 * at least one client is bound; the last `unbindServicer` destroys it.
 */
module IconLoaders {
  import opened Common
  import opened Collaborators
  import opened Engine
  import opened Display
  import opened LoadTasks
  import opened ImageLoaders

  /** The exceptions the client bookkeeping throws. */
  datatype Failure = IllegalArgumentException | IllegalStateException

  /** A call that either returns normally or throws one of them. */
  datatype Outcome = Pass | Fail(error: Failure)

  /** `List.remove(Object)`: drops the first element equal to `x`, if any. */
  function RemoveFirst(s: seq<object>, x: object): (r: seq<object>)
    ensures x !in s ==> r == s
    ensures x in s ==> multiset(r) == multiset(s) - multiset{x}
    ensures |r| == if x in s then |s| - 1 else |s|
  {
    if s == [] then []
    else
      assert s == [s[0]] + s[1..];
      if s[0] == x then s[1..]
      else [s[0]] + RemoveFirst(s[1..], x)
  }

  /** No client occurs twice. */
  predicate Distinct(s: seq<object>)
  {
    forall i, j :: 0 <= i < j < |s| ==> s[i] != s[j]
  }

  /**
   * Clients are bound at most once, so removing one leaves no copy behind,
   * keeps every other client, and leaves the list without duplicates.
   */
  lemma {:induction false} RemoveFirstOfDistinct(s: seq<object>, x: object)
    requires Distinct(s)
    ensures x !in RemoveFirst(s, x)
    ensures forall y :: y != x ==> (y in RemoveFirst(s, x) <==> y in s)
    ensures Distinct(RemoveFirst(s, x))
  {
    if s != [] && s[0] != x {
      assert Distinct(s[1..]) by {
        forall i, j | 0 <= i < j < |s[1..]| ensures s[1..][i] != s[1..][j] {
          assert s[1..][i] == s[i + 1] && s[1..][j] == s[j + 1];
        }
      }
      RemoveFirstOfDistinct(s[1..], x);
      var rest := RemoveFirst(s[1..], x);
      assert s[0] !in s[1..];
      assert s[0] !in rest;
      forall i, j | 0 <= i < j < |[s[0]] + rest| ensures ([s[0]] + rest)[i] != ([s[0]] + rest)[j] {
        if i > 0 {
          assert ([s[0]] + rest)[i] == rest[i - 1] && ([s[0]] + rest)[j] == rest[j - 1];
        } else {
          assert ([s[0]] + rest)[j] == rest[j - 1];
        }
      }
    } else if s != [] {
      assert s == [s[0]] + s[1..];
      assert forall y :: y in s[1..] ==> y in s;
      forall i, j | 0 <= i < j < |s[1..]| ensures s[1..][i] != s[1..][j] {
        assert s[1..][i] == s[i + 1] && s[1..][j] == s[j + 1];
      }
    }
  }

  /** Unbinding a client just bound restores the client list. */
  lemma {:induction false} UnbindUndoesBind(s: seq<object>, c: object)
    requires c !in s
    ensures RemoveFirst(s + [c], c) == s
  {
    if s != [] {
      assert (s + [c])[1..] == s[1..] + [c];
      UnbindUndoesBind(s[1..], c);
    }
  }

  class IconLoader {
    const engine: ImageLoaderEngine
    const cache: ImageCache
    const handler: MainHandler
    var context: object?
    /** `mClients` */
    var clients: seq<object>

    /** The invariant `bindServicer`'s duplicate check keeps: no client is bound twice. */
    predicate Valid()
      reads this
    {
      Distinct(clients)
    }

    constructor (context: object)
      ensures Valid()
      ensures fresh(engine) && fresh(cache) && fresh(handler) && fresh(engine.executor)
      ensures engine.registry == map[] && engine.uriLocks == map[] && !engine.paused
      ensures !engine.executor.isShutdown && engine.executor.pending == []
      ensures cache.entries == map[] && handler.posted == [] && this.context == context && clients == []
    {
      engine := new ImageLoaderEngine();
      cache := new ImageCache();
      handler := new MainHandler();
      this.context := context;
      clients := [];
    }

    /**
     * `displayImage(uri, imageViewAware)`: registers the target under `uri`;
     * a usable cached icon is painted at once, otherwise the target is
     * cleared and one icon task keyed by `uri` is submitted.
     */
    method DisplayImage(uri: string, target: ImageAware) returns (ghost task: LoadTask?)
      modifies engine, engine.executor, target
      ensures task != null ==> fresh(task)
      ensures IconRequested(engine, cache, handler, uri, target, task)
    {
      engine.PrepareDisplayTaskFor(target.id, uri);
      var bitmap := cache.Get(uri);
      if bitmap.Some? && !bitmap.value.recycled {
        target.SetImageBitmap(bitmap);
        task := null;
      } else {
        target.SetImageBitmap(None);
        var lock := engine.GetLockForUri(uri);
        var t := new LoadTask(Builder(uri, target, Some(uri), lock, handler, engine, cache), IconTask);
        engine.Submit(t);
        task := t;
      }
    }

    /** `cancelShowImage(view)`: forgets the view's registration (keyed by its hash code). */
    method CancelShowImage(viewHash: int)
      modifies engine
      ensures engine.registry == old(engine.registry) - {viewHash}
      ensures engine.uriLocks == old(engine.uriLocks) && engine.paused == old(engine.paused)
      ensures engine.executor == old(engine.executor)
    {
      engine.CancelDisplayTaskFor(viewHash);
    }

    method Pause()
      modifies engine
      ensures engine.paused
      ensures engine.registry == old(engine.registry) && engine.uriLocks == old(engine.uriLocks)
      ensures engine.executor == old(engine.executor)
    {
      engine.Pause();
    }

    method Resume()
      modifies engine
      ensures !engine.paused
      ensures engine.registry == old(engine.registry) && engine.uriLocks == old(engine.uriLocks)
      ensures engine.executor == old(engine.executor)
    {
      engine.Resume();
    }

    /** `stop()`: cancels all running and scheduled tasks and forgets every registration and lock. */
    method Stop()
      modifies engine, engine.executor
      ensures engine.registry == map[] && engine.uriLocks == map[] && engine.paused == old(engine.paused)
      ensures engine.executor == old(engine.executor) && engine.executor.isShutdown
      ensures engine.executor.pending == []
    {
      engine.Stop();
    }

    /** `bindServicer`: registers a client that is not null and not yet bound. */
    method BindServicer(client: object?) returns (r: Outcome)
      requires Valid()
      modifies this
      ensures Valid()
      ensures client == null ==> r == Fail(IllegalArgumentException) && clients == old(clients)
      ensures client != null && client in old(clients) ==> r == Fail(IllegalStateException) && clients == old(clients)
      ensures client != null && client !in old(clients) ==> r == Pass && clients == old(clients) + [client]
      ensures context == old(context)
    {
      if client == null {
        return Fail(IllegalArgumentException);
      }
      if client in clients {
        return Fail(IllegalStateException);
      }
      clients := clients + [client];
      r := Pass;
      assert forall i :: 0 <= i < |old(clients)| ==> clients[i] == old(clients)[i];
    }

    /**
     * `unbindServicer`: removes a bound client; when none is left, the
     * current singleton (whichever loader that is) is destroyed.
     */
    method UnbindServicer(client: object?, statics: IconLoaderSingleton) returns (r: Outcome)
      requires Valid()
      modifies this, statics
      modifies if statics.instance == null then {}
               else {statics.instance, statics.instance.cache, statics.instance.engine,
                     statics.instance.engine.executor}
      ensures client == null ==> r == Fail(IllegalArgumentException) && clients == old(clients)
      ensures client != null && client !in old(clients) ==>
                r == Fail(IllegalStateException) && clients == old(clients)
      ensures client != null && client in old(clients) ==>
                && r == Pass
                && clients == RemoveFirst(old(clients), client)
                && (clients == [] ==> statics.instance == null && (old(statics.instance) != null ==> Destroyed(old(statics.instance))))
                && (clients != [] ==> statics.instance == old(statics.instance))
      ensures r != Pass ==> statics.instance == old(statics.instance)
      ensures r == Pass ==> client !in clients && forall c :: c != client ==> (c in clients <==> c in old(clients))
      ensures Valid()
    {
      if client == null {
        return Fail(IllegalArgumentException);
      }
      if client !in clients {
        return Fail(IllegalStateException);
      }
      RemoveFirstOfDistinct(clients, client);
      clients := RemoveFirst(clients, client);
      r := Pass;
      if |clients| == 0 {
        statics.DestroySingleton();
      }
    }
  }

  /**
   * The effect of an icon request: the target is registered under `uri`; a
   * usable cached icon is painted and no lock or task is created; otherwise
   * the target is cleared and exactly `task`, an icon task for `uri` keyed by
   * `uri` and holding the lock stored for `uri`, is submitted.
   */
  twostate predicate IconRequested(engine: ImageLoaderEngine, cache: ImageCache, handler: MainHandler,
                                   uri: string, target: ImageAware, new task: LoadTask?)
    reads engine, engine.executor, cache, target, task
  {
    && engine.registry == old(engine.registry)[target.id := uri]
    && engine.paused == old(engine.paused)
    && cache.entries == old(cache.entries)
    && target.collected == old(target.collected)
    && if Usable(Lookup(cache.entries, uri)) then
         && task == null
         && target.image == Lookup(cache.entries, uri)
         && engine.uriLocks == old(engine.uriLocks)
         && NothingSubmitted(engine)
       else
         && task != null
         && target.image == None
         && uri in engine.uriLocks
         && engine.uriLocks == old(engine.uriLocks)[uri := engine.uriLocks[uri]]
         && (uri in old(engine.uriLocks) ==> engine.uriLocks[uri] == old(engine.uriLocks[uri]))
         && task.uri == uri && task.cacheKey == uri && task.target == target
         && task.lock == engine.uriLocks[uri] && task.kind == IconTask && task.shape == None
         && task.engine == engine && task.cache == cache && task.handler == handler
         && SubmittedOnce(engine, task)
  }

  /** A destroyed loader: cache cleared, engine stopped, context dropped. */
  twostate predicate Destroyed(l: IconLoader)
    reads l, l.cache, l.engine, l.engine.executor
  {
    && l.cache.entries == map[] && l.context == null
    && l.engine.registry == map[] && l.engine.uriLocks == map[]
    && l.engine.executor == old(l.engine.executor) && l.engine.executor.isShutdown
    && l.engine.executor.pending == [] && l.engine.paused == old(l.engine.paused)
  }

  /** The static `sInstance` of `IconLoader`. */
  class IconLoaderSingleton {
    var instance: IconLoader?

    constructor ()
      ensures instance == null
    {
      instance := null;
    }

    function IsSingletonInit(): (r: bool)
      reads this
      ensures r <==> instance != null
    {
      instance != null
    }

    /** `ensureInitSingleton`: creates an instance only when there is none. */
    method EnsureInitSingleton(context: object)
      modifies this
      ensures instance != null
      ensures old(instance) != null ==> instance == old(instance)
      ensures old(instance) == null ==> fresh(instance) && instance.clients == [] && instance.cache.entries == map[]
    {
      if !IsSingletonInit() {
        instance := new IconLoader(context);
      }
    }

    /** `getInstance`: the instance, or IllegalStateException before initialisation. */
    method GetInstance() returns (r: Result)
      ensures instance == null ==> r == Err(IllegalStateException)
      ensures instance != null ==> r == Ok(instance)
    {
      if instance == null {
        return Err(IllegalStateException);
      }
      r := Ok(instance);
    }

    /** `destroySingleton` */
    method DestroySingleton()
      modifies this
      modifies if instance == null then {} else {instance, instance.cache, instance.engine, instance.engine.executor}
      ensures instance == null
      ensures old(instance) != null ==> Destroyed(old(instance)) && old(instance).clients == old(instance.clients)
    {
      if IsSingletonInit() {
        instance.cache.Clear();
        instance.engine.Stop();
        instance.context := null;
        instance := null;
      }
    }
  }

  /** The value of `getInstance()`: an instance, or the exception it throws. */
  datatype Result = Ok(loader: IconLoader) | Err(error: Failure)
}
