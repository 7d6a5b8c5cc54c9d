/**
  The decision logic of the skylink URI resolver (`openSkylink`): which remote
  address to import for a chart URI, or whether to go through the cluster-local
  skychart service, or to give up. Only the choice is made here; the network
  calls that carry it out are interpreted in module Mount.
 */
module Resolver {
  import opened Wrappers
  import opened Strings

  /** The two components of a parsed URI that the resolver looks at. */
  datatype ParsedUri = ParsedUri(scheme: string, host: string)

  /**
    A chart URI: the raw string as the caller wrote it, and what the URI parser made
    of it (`None` when parsing failed). The parser lower-cases the scheme; the raw
    string is kept as written.
   */
  datatype Link = Link(raw: string, parsed: Option<ParsedUri>)

  /** Why a link was refused; each reason corresponds to one logged diagnostic. */
  datatype Failure = ParseFailed | UnknownHost(host: string) | UnknownScheme(scheme: string)

  /**
    What the resolver decides to do: import one remote address; resolve the skychart
    service (by the nested plan) and ask it for the named chart; or return nil.
   */
  datatype Plan =
    | Import(url: string)
    | ViaSkychart(chartName: string, skychart: Plan)
    | Fail(reason: Failure)

  const SKYLINK_PREFIX := "skylink+"
  const HTTP_EXPORT_SUFFIX := "/~~export"
  const WS_EXPORT_SUFFIX := "/~~export/ws"
  /** The host form `<name>.chart.local` minus its first label. */
  const CHART_SUFFIX := ".chart.local"

  /** The fixed URI through which the skychart service is reached, as the parser splits it. */
  const SKYCHART_LINK := Link("skylink+ws://skychart", Some(ParsedUri("skylink+ws", "skychart")))
  /** The address that SKYCHART_LINK imports. */
  const SKYCHART_IMPORT_URL := "ws://skychart/~~export/ws"

  predicate IsHttpScheme(scheme: string) { scheme == "skylink+http" || scheme == "skylink+https" }

  predicate IsWsScheme(scheme: string) { scheme == "skylink+ws" || scheme == "skylink+wss" }

  /**
    The chart name of a `skylink` host: the host split on `.` must have exactly three
    labels, the second `chart` and the third `local`; the name is the first label.
   */
  function ChartName(host: string): (name: Option<string>)
    ensures name.Some? ==> '.' !in name.value
  {
    var labels := Split(host, '.');
    if |labels| == 3 && labels[2] == "local" && labels[1] == "chart" then Some(labels[0]) else None
  }

  /** The links the resolver does not refuse: a parsed URI with one of the four transport
      schemes, or the `skylink` scheme with a `<name>.chart.local` host. */
  predicate Accepted(link: Link)
  {
    link.parsed.Some? &&
    var uri := link.parsed.value;
    IsHttpScheme(uri.scheme) || IsWsScheme(uri.scheme) ||
    (uri.scheme == "skylink" && ChartName(uri.host).Some?)
  }

  /** The number of nested resolutions a plan performs before importing or failing. */
  function Depth(p: Plan): nat
  {
    match p
    case ViaSkychart(_, inner) => 1 + Depth(inner)
    case _ => 0
  }

  /**
    `openSkylink`'s dispatch on the scheme. The `skylink` case resolves the fixed
    skychart link, whose scheme is `skylink+ws`, so the nesting stops after one level.
   */
  function Resolve(link: Link): (p: Plan)
    ensures Depth(p) <= 1
    ensures p.Fail? <==> !Accepted(link)
    decreases if link.parsed.Some? && link.parsed.value.scheme == "skylink" then 1 else 0
  {
    match link.parsed
    case None => Fail(ParseFailed)
    case Some(uri) =>
      if IsHttpScheme(uri.scheme) then
        Import(TrimPrefix(link.raw, SKYLINK_PREFIX) + HTTP_EXPORT_SUFFIX)
      else if IsWsScheme(uri.scheme) then
        Import(TrimPrefix(link.raw, SKYLINK_PREFIX) + WS_EXPORT_SUFFIX)
      else if uri.scheme == "skylink" then
        match ChartName(uri.host)
        case Some(name) => ViaSkychart(name, Resolve(SKYCHART_LINK))
        case None => Fail(UnknownHost(uri.host))
      else
        Fail(UnknownScheme(uri.scheme))
  }

  /** Every separator-free name is accepted as `<name>.chart.local`, and yields that name. */
  lemma ChartNameOf(name: string)
    requires '.' !in name
    ensures ChartName(name + CHART_SUFFIX) == Some(name)
  {
    var labels := [name, "chart", "local"];
    assert Join(labels[2..], '.') == "local";
    assert Join(labels[1..], '.') == "chart" + "." + "local" by { assert labels[1..][1..] == labels[2..]; }
    assert Join(labels, '.') == name + CHART_SUFFIX;
    SplitJoin(labels, '.');
  }

  /** Conversely, an accepted host is exactly its chart name followed by `.chart.local`. */
  lemma ChartNameShape(host: string)
    requires ChartName(host).Some?
    ensures host == ChartName(host).value + CHART_SUFFIX
  {
    var labels := Split(host, '.');
    JoinSplit(host, '.');
    assert Join(labels[2..], '.') == labels[2];
    assert Join(labels[1..], '.') == labels[1] + "." + labels[2] by { assert labels[1..][1..] == labels[2..]; }
  }

  /** A host with a `:port` suffix (a port without dots) is never accepted. */
  lemma PortSuffixRejected(host: string, port: string)
    requires '.' !in port
    ensures ChartName(host + ":" + port) == None
  {
    var t := host + ":" + port;
    if ChartName(t).Some? {
      ChartNameShape(t);
      PortedHostDiffers(host, port, ChartName(t).value);
      assert false;
    }
  }

  /** `host:port` (a port without dots) never spells `<name>.chart.local`. */
  lemma PortedHostDiffers(host: string, port: string, name: string)
    requires '.' !in port
    ensures host + ":" + port != name + CHART_SUFFIX
  {
    var t, u := host + ":" + port, name + CHART_SUFFIX;
    if |t| == |u| {
      if |port| >= 6 {
        assert t[|t| - 6] == port[|port| - 6] != '.';
        assert u[|u| - 6] == '.';
      } else {
        assert t[|host|] == ':';
        assert u[|host|] == CHART_SUFFIX[|host| - |name|] != ':';
      }
    }
  }

  /** The fixed skychart link imports `ws://skychart/~~export/ws` directly. */
  lemma SkychartLinkImports()
    ensures Resolve(SKYCHART_LINK) == Import(SKYCHART_IMPORT_URL)
  {
  }

  /**
    The transport schemes import the raw link with its leading `skylink+` dropped and
    the export suffix appended after the path and query: putting the prefix back on the
    imported address gives the raw link followed by the suffix. A raw link that does not
    start with the lower-case prefix (the parser lower-cases the scheme, the trimming
    does not) is imported unchanged with the suffix appended.
   */
  lemma TransportImport(link: Link)
    requires link.parsed.Some?
    requires IsHttpScheme(link.parsed.value.scheme) || IsWsScheme(link.parsed.value.scheme)
    ensures var suffix := if IsHttpScheme(link.parsed.value.scheme) then HTTP_EXPORT_SUFFIX else WS_EXPORT_SUFFIX;
      && Resolve(link).Import?
      && (SKYLINK_PREFIX <= link.raw ==> SKYLINK_PREFIX + Resolve(link).url == link.raw + suffix)
      && (!(SKYLINK_PREFIX <= link.raw) ==> Resolve(link).url == link.raw + suffix)
  {
  }

  /**
    A `skylink` link whose host is `<name>.chart.local` goes through the skychart
    service, asking it for `name`; the service itself is reached by importing
    `ws://skychart/~~export/ws`.
   */
  lemma SkylinkChartHost(link: Link, name: string)
    requires link.parsed == Some(ParsedUri("skylink", name + CHART_SUFFIX))
    requires '.' !in name
    ensures Resolve(link) == ViaSkychart(name, Import(SKYCHART_IMPORT_URL))
  {
    ChartNameOf(name);
    SkychartLinkImports();
  }

  /**
    A `skylink` link goes through the skychart service only for a host of the form
    `<name>.chart.local`, and the name asked for is that first label; any other host is
    refused as unknown.
   */
  lemma SkylinkHostRequired(link: Link)
    requires link.parsed.Some? && link.parsed.value.scheme == "skylink"
    ensures Resolve(link).ViaSkychart? || Resolve(link) == Fail(UnknownHost(link.parsed.value.host))
    ensures Resolve(link).ViaSkychart? ==>
      && '.' !in Resolve(link).chartName
      && link.parsed.value.host == Resolve(link).chartName + CHART_SUFFIX
  {
    if ChartName(link.parsed.value.host).Some? {
      ChartNameShape(link.parsed.value.host);
    }
  }

  /** Unparsable links and links with any other scheme are refused, each with its reason. */
  lemma RefusalReason(link: Link)
    ensures link.parsed.None? ==> Resolve(link) == Fail(ParseFailed)
    ensures
      (link.parsed.Some? && !IsHttpScheme(link.parsed.value.scheme) &&
       !IsWsScheme(link.parsed.value.scheme) && link.parsed.value.scheme != "skylink")
      ==> Resolve(link) == Fail(UnknownScheme(link.parsed.value.scheme))
  {
  }
}
