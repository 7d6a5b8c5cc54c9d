/**
  `OpenSessionImpl`: a session starts with an empty `apps` folder; its bootstrap
  resolves the chart link, mounts the result as the session's root context under
  `tmp:/`, and registers one App per child of `/apps`, requesting each app's
  `launch` routine right after storing it. The bootstrap runs here in sequence,
  after the session has been created.
 */
module Sessions {
  import opened Wrappers
  import opened Resolver
  import opened Mount

  /** The observable effects of registration, in the order they happen. */
  datatype Event = Stored(name: string) | RoutineRequested(name: string, routine: string)

  /** The routine requested for every registered app. */
  const LAUNCH_ROUTINE := "launch"
  /** The base URI of the session's root context over the mounted chart. */
  const TMP_BASE := "tmp:/"

  /** The events the registration loop produces for `names`: per name, the app is stored, then launched. */
  function LaunchLog(names: seq<string>): (log: seq<Event>)
    ensures |log| == 2 * |names|
  {
    if names == [] then []
    else
      var last := names[|names| - 1];
      LaunchLog(names[..|names| - 1]) + [Stored(last), RoutineRequested(last, LAUNCH_ROUTINE)]
  }

  /**
    The log, position by position: the j-th name is stored at 2j and its `launch` is
    requested at 2j+1, so every app is stored before its launch is requested, and the
    apps are handled in the order the chart lists them.
   */
  lemma {:induction false} LaunchLogAt(names: seq<string>, j: nat)
    requires j < |names|
    ensures LaunchLog(names)[2 * j] == Stored(names[j])
    ensures LaunchLog(names)[2 * j + 1] == RoutineRequested(names[j], LAUNCH_ROUTINE)
  {
    var prefix := names[..|names| - 1];
    if j < |names| - 1 {
      LaunchLogAt(prefix, j);
      assert prefix[j] == names[j];
    }
  }

  class App {
    const appName: string
    const session: Session
    /** The app's `processes` folder, owned later by the process subsystem. */
    var processes: map<string, nat>

    /** A new app record with a fresh, empty `processes` folder. */
    constructor (appName: string, session: Session)
      ensures this.appName == appName && this.session == session && processes == map[]
    {
      this.appName := appName;
      this.session := session;
      processes := map[];
    }

    /**
      Asks the routine runner to start `routine` for this app. Only the request is
      recorded; the runner may change the app's own state (its `processes`), so nothing
      is promised about it.
     */
    method StartRoutine(routine: string)
      modifies session, this
      ensures session.events == old(session.events) + [RoutineRequested(appName, routine)]
      ensures session.apps == old(session.apps) && session.ctx == old(session.ctx)
    {
      session.events := session.events + [RoutineRequested(appName, routine)];
    }
  }

  class Session {
    /** The `apps` folder: app name to App. */
    var apps: map<string, App>
    /** The root context over the mounted chart; unset until the bootstrap sets it. */
    var ctx: Option<Namespace>
    /** The stores into `apps` and the routine requests, in order. */
    var events: seq<Event>

    /** A session shell: an empty `apps` folder and no context yet. */
    constructor ()
      ensures apps == map[] && ctx == None && events == []
    {
      apps := map[];
      ctx := None;
      events := [];
    }

    /**
      After registering `names` on top of `before`: the keys are the old ones plus the
      names; apps under other keys are untouched; each name maps to an App with that
      name, belonging to this session; and the log has grown by exactly the
      store-then-launch events of the names, in order.
     */
    ghost predicate RegisteredFrom(before: map<string, App>, logBefore: seq<Event>, names: seq<string>)
      reads this
    {
      && apps.Keys == before.Keys + (set n | n in names)
      && (forall k :: k in before && k !in names ==> apps[k] == before[k])
      && (forall k :: k in names ==>
            k in apps && apps[k].appName == k && apps[k].session == this)
      && events == logBefore + LaunchLog(names)
    }

    /** `apps.Put`: stores `app` under `name`, replacing what was there. */
    method Put(name: string, app: App)
      modifies this
      ensures apps == old(apps)[name := app]
      ensures events == old(events) + [Stored(name)] && ctx == old(ctx)
    {
      apps := apps[name := app];
      events := events + [Stored(name)];
    }

    /**
      The registration loop: for each child name of `/apps`, store a new App (with an
      empty `processes` folder at the moment it is stored), then launch it.
     */
    method RegisterApps(names: seq<string>)
      modifies this
      ensures ctx == old(ctx)
      ensures RegisteredFrom(old(apps), old(events), names)
      ensures forall k :: k in names ==> k in apps && fresh(apps[k])
    {
      var i := 0;
      while i < |names|
        invariant 0 <= i <= |names|
        invariant ctx == old(ctx)
        invariant RegisteredFrom(old(apps), old(events), names[..i])
        invariant forall k :: k in names[..i] ==> k in apps && fresh(apps[k])
      {
        var name := names[i];
        var app := new App(name, this);
        assert app.processes == map[];
        Put(name, app);
        app.StartRoutine(LAUNCH_ROUTINE);
        assert names[..i + 1] == names[..i] + [name];
        assert names[..i + 1][..i] == names[..i];
        i := i + 1;
      }
      assert names[..|names|] == names;
    }

    /**
      The asynchronous part of `OpenSessionImpl`. A panic on the skychart path stops it
      before anything is set. Otherwise the resolved root (nil included) becomes the
      session's context under `tmp:/`; if that context has an `/apps` folder, its
      children are registered, and otherwise nothing is added.
     */
    method Bootstrap(link: Link, w: World)
      modifies this
      ensures Open(link, w).Panicked? ==> apps == old(apps) && events == old(events) && ctx == old(ctx)
      ensures !Open(link, w).Panicked? ==> ctx == Some(Namespace(TMP_BASE, RootOf(Open(link, w))))
      ensures !Open(link, w).Panicked? && w.appNames(ctx.value).None? ==>
        apps == old(apps) && events == old(events)
      ensures !Open(link, w).Panicked? && w.appNames(ctx.value).Some? ==>
        RegisteredFrom(old(apps), old(events), w.appNames(ctx.value).value)
    {
      var o := Open(link, w);
      if o.Panicked? {
        return;
      }
      ctx := Some(Namespace(TMP_BASE, RootOf(o)));
      var listing := w.appNames(ctx.value);
      if listing.Some? {
        RegisterApps(listing.value);
      }
    }
  }

  /** The names of the apps a session over `link` ends up with. */
  function AppNames(link: Link, w: World): (names: seq<string>)
  {
    var o := Open(link, w);
    if o.Panicked? then []
    else match w.appNames(Namespace(TMP_BASE, RootOf(o)))
      case Some(names) => names
      case None => []
  }

  /**
    `OpenSessionImpl`: a fresh session shell, then its bootstrap. The session ends up
    with exactly one app per child name of `/apps`, each stored under its own name, and
    with the store-then-launch log of those names.
   */
  method OpenSession(link: Link, w: World) returns (session: Session)
    ensures fresh(session)
    ensures session.apps.Keys == set n | n in AppNames(link, w)
    ensures forall k :: k in session.apps ==>
      session.apps[k].appName == k && session.apps[k].session == session && fresh(session.apps[k])
    ensures session.events == LaunchLog(AppNames(link, w))
  {
    session := new Session();
    session.Bootstrap(link, w);
  }

  /**
    When the link is refused, and a namespace over a nil root has no `/apps` folder,
    the session stays empty and nothing is launched.
   */
  lemma RefusedLinkGivesEmptySession(link: Link, w: World)
    requires !Accepted(link)
    requires w.appNames(Namespace(TMP_BASE, None)) == None
    ensures AppNames(link, w) == []
  {
  }
}
