/**
  Carrying out a resolver plan against the network. The remote import, the namespace
  lookups, folder fetches and function invocations are not modelled: they are the
  fields of a World, arbitrary functions that the lemmas quantify over.
 */
module Mount {
  import opened Wrappers
  import opened Resolver

  /** A namespace node handle, by the kinds the resolver narrows it to. */
  datatype Entry = Folder(id: nat) | Function(id: nat) | Str(value: string)

  /** A root context: a namespace over a (possibly nil) root entry, anchored at a base URI. */
  datatype Namespace = Namespace(baseUri: string, root: Option<Entry>)

  /**
    The collaborators the resolver and the session bootstrap call, as opaque functions:
    importing a remote tree by URL; looking up a function by path in a namespace;
    fetching a named child of a folder; invoking a function on an optional input; and
    listing the children of `/apps` in a namespace (`None` when there is no such folder).
   */
  datatype World = World(
    importUri: string -> Option<Entry>,
    getFunction: (Namespace, string) -> Option<nat>,
    fetch: (nat, string) -> Option<Entry>,
    invoke: (nat, Option<Entry>) -> Option<Entry>,
    appNames: Namespace -> Option<seq<string>>)

  /**
    The result of resolving a link: a mounted root entry, nil, or a panic of one of the
    unchecked type assertions on the skychart path.
   */
  datatype Outcome = Mounted(root: Entry) | Nil | Panicked

  /** The base URI under which the skychart service's root is mounted. */
  const SKYCHART_BASE := "skylink://skychart.local"
  /** The path of the skychart function that opens a chart by name. */
  const OPEN_PATH := "/pub/open/invoke"

  function Lift(e: Option<Entry>): (o: Outcome)
    ensures o != Panicked
    ensures o.Mounted? <==> e.Some?
  {
    match e
    case Some(root) => Mounted(root)
    case None => Nil
  }

  /** The root entry a non-panicking outcome leaves behind; nil stays nil. */
  function RootOf(o: Outcome): (e: Option<Entry>)
    requires !o.Panicked?
    ensures Lift(e) == o
  {
    match o
    case Mounted(root) => Some(root)
    case Nil => None
  }

  /** The skychart service has an open function, and opening the chart `name` with it returned something. */
  ghost predicate Opened(w: World, sky: Namespace, name: string)
  {
    exists f, meta :: w.getFunction(sky, OPEN_PATH) == Some(f) && w.invoke(f, Some(Str(name))) == Some(meta)
  }

  /**
    The chart's browse function is `g`: the open function returned a folder, its child
    `browse` is a folder, and that folder's child `invoke` is the function `g`.
   */
  ghost predicate ReachesBrowse(w: World, sky: Namespace, name: string, g: nat)
  {
    exists f, m, b ::
      && w.getFunction(sky, OPEN_PATH) == Some(f)
      && w.invoke(f, Some(Str(name))) == Some(Folder(m))
      && w.fetch(m, "browse") == Some(Folder(b))
      && w.fetch(b, "invoke") == Some(Function(g))
  }

  /**
    The skychart steps after its root has been mounted as `sky`: look up the open
    function, open the chart by name, fetch `browse` and then its `invoke` from the
    result (each asserted to be a folder, the last a function), then browse with no
    input.
   */
  function OpenChart(w: World, sky: Namespace, name: string): (o: Outcome)
    // a missing open function or a nil open result gives nil
    ensures !Opened(w, sky, name) ==> o == Nil
    // once the browse function is reached, its result is returned: nil for nil
    ensures forall g :: ReachesBrowse(w, sky, name, g) ==> o == Lift(w.invoke(g, None))
    // a mounted root is always the result of the chart's own browse function
    ensures o.Mounted? ==> exists g :: ReachesBrowse(w, sky, name, g) && w.invoke(g, None) == Some(o.root)
    // a panic happens exactly when the open result is not a folder, `browse` is missing
    // or not a folder, or `invoke` is missing or not a function
    ensures o.Panicked? <==> Opened(w, sky, name) && !exists g :: ReachesBrowse(w, sky, name, g)
  {
    match w.getFunction(sky, OPEN_PATH)
    case None => Nil
    case Some(openFn) =>
      match w.invoke(openFn, Some(Str(name)))
      case None => Nil
      case Some(meta) =>
        if !meta.Folder? then Panicked
        else match w.fetch(meta.id, "browse")
        case None => Panicked
        case Some(browseDir) =>
          if !browseDir.Folder? then Panicked
          else match w.fetch(browseDir.id, "invoke")
          case None => Panicked
          case Some(browseFn) =>
            if !browseFn.Function? then Panicked
            else Lift(w.invoke(browseFn.id, None))
  }

  /**
    Carries out a plan. A nested resolution is run first; its result (nil included) is
    mounted under SKYCHART_BASE and the chart is opened through it.
   */
  function Run(p: Plan, w: World): (o: Outcome)
    // only the skychart route can panic
    ensures o.Panicked? ==> p.ViaSkychart?
    // outside the skychart route, a mounted root is the import of the plan's own URL
    ensures o.Mounted? && !p.ViaSkychart? ==> p.Import? && w.importUri(p.url) == Some(o.root)
    // a skychart route over an import opens the chart through the imported root
    ensures p.ViaSkychart? && p.skychart.Import? ==>
      o == OpenChart(w, Namespace(SKYCHART_BASE, w.importUri(p.skychart.url)), p.chartName)
  {
    match p
    case Fail(_) => Nil
    case Import(url) => Lift(w.importUri(url))
    case ViaSkychart(name, inner) =>
      var sky := Run(inner, w);
      if sky.Panicked? then Panicked
      else OpenChart(w, Namespace(SKYCHART_BASE, RootOf(sky)), name)
  }

  /**
    `openSkylink`: resolve the link, then carry the plan out. Only accepted links ever
    mount a root, and only the skychart route can panic.
   */
  function Open(link: Link, w: World): (o: Outcome)
    ensures o.Mounted? ==> Accepted(link)
    ensures o.Panicked? ==> Resolve(link).ViaSkychart?
  {
    Run(Resolve(link), w)
  }

  /**
    The namespace through which a `<name>.chart.local` link reaches the skychart service:
    the root that opening the fixed skychart link gives, mounted under SKYCHART_BASE.
   */
  function SkychartNamespace(w: World): (ns: Namespace)
    ensures !Open(SKYCHART_LINK, w).Panicked?
    ensures ns == Namespace(SKYCHART_BASE, RootOf(Open(SKYCHART_LINK, w)))
  {
    SkychartLinkImports();
    Namespace(SKYCHART_BASE, w.importUri(SKYCHART_IMPORT_URL))
  }

  /**
    Opening a `<name>.chart.local` link imports the skychart service once, at
    `ws://skychart/~~export/ws`, and opens the chart `name` through it; nothing else
    is imported and the skychart link is not resolved a second time.
   */
  lemma {:induction false} OpenViaSkychart(link: Link, w: World, name: string)
    requires link.parsed == Some(ParsedUri("skylink", name + CHART_SUFFIX))
    requires '.' !in name
    ensures Open(link, w) == OpenChart(w, SkychartNamespace(w), name)
  {
    SkylinkChartHost(link, name);
    var sky := Run(Import(SKYCHART_IMPORT_URL), w);
    assert RootOf(sky) == w.importUri(SKYCHART_IMPORT_URL);
  }

  /** The transport schemes import exactly the rewritten address, and never panic. */
  lemma OpenTransport(link: Link, w: World)
    requires link.parsed.Some?
    requires IsHttpScheme(link.parsed.value.scheme) || IsWsScheme(link.parsed.value.scheme)
    ensures Resolve(link).Import?
    ensures Open(link, w) == Lift(w.importUri(Resolve(link).url))
  {
  }

  /** Refused links (unparsable, unknown scheme, unknown skylink host) open to nil. */
  lemma OpenRefused(link: Link, w: World)
    requires !Accepted(link)
    ensures Open(link, w) == Nil
  {
  }

  /**
    Only the unchecked type assertions of the skychart path can panic, so a panic comes
    from a `skylink` link with a `<name>.chart.local` host and never from the transport
    schemes or a refused link.
   */
  lemma PanicOnlyViaSkychart(link: Link, w: World)
    ensures Open(link, w).Panicked? ==>
      link.parsed.Some? && link.parsed.value.scheme == "skylink" &&
      ChartName(link.parsed.value.host).Some?
  {
  }
}
