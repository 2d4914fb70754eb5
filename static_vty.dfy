/**
 * The static-route commands of staticd/static_vty.c and the northbound changes they queue.
 *
 * `static_route_leak` validates an argument combination, classifies the
 * nexthop and then queues an ordered list of northbound changes on the vty,
 * which `nb_cli_apply_changes` applies relative to one base xpath. The xpath
 * format macros are modelled as structured values (`Xpath`): each macro
 * becomes a constructor holding the arguments the macro formats, and each
 * leaf suffix that is `strlcat`ed on becomes a `Sub` step. Parsing of the
 * argument strings (`str2prefix`, `inet_aton`, `atoi`, `strtoul`, `atol`)
 * is foreign; its results arrive as a `Parsed` value. The candidate
 * configuration is a map from each present nexthop's lookup xpath to the
 * path that `yang_get_subtree_with_no_sibling` then `yang_dnode_get_path`
 * report for it.
 */
module StaticVty {
  import opened Optional

  /** CMD_SUCCESS and CMD_WARNING_CONFIG_FAILED of lib/command.h. */
  const CmdSuccess: int := 0
  const CmdWarningConfigFailed: int := 13

  /** ZEBRA_STATIC_DISTANCE_DEFAULT. */
  const StaticDistanceDefault: nat := 1

  /** VRF_DEFAULT_NAME. */
  const VrfDefaultName: string := "default"

  /** The change values and flag words the commands use, named once. */
  const TrueText: string := "true"
  const FalseText: string := "false"
  const NullText: string := "null"
  const RejectText: string := "reject"
  const UnspecText: string := "unspec"
  const BlackholeText: string := "blackhole"
  const Null0Flag: string := "Null0"

  /** Sizes of the C integer types the parsed numbers are stored in. */
  const U8Range: nat := 0x100
  const U32Range: nat := 0x1_0000_0000

  datatype Afi = AfiIp | AfiIp6 | AfiOther

  datatype Safi = SafiUnicast | SafiMulticast

  /** `enum static_nh_type`. */
  datatype NhType = Ifname | Ipv4Gateway | Ipv4GatewayIfname | Blackhole | Ipv6Gateway | Ipv6GatewayIfname

  predicate HasGateway(t: NhType)
  {
    t.Ipv4Gateway? || t.Ipv4GatewayIfname? || t.Ipv6Gateway? || t.Ipv6GatewayIfname?
  }

  predicate HasInterface(t: NhType)
  {
    t.Ifname? || t.Ipv4GatewayIfname? || t.Ipv6GatewayIfname?
  }

  predicate IsIpv6(t: NhType)
  {
    t.Ipv6Gateway? || t.Ipv6GatewayIfname?
  }

  /** The parameters of `static_route_leak`; a NULL `const char *` is None. */
  datatype RouteArgs = RouteArgs(
    svrf: string, nhVrf: string, afi: Afi, safi: Safi, negate: bool,
    dest: string, mask: Option<string>, src: Option<string>,
    gate: Option<string>, ifname: Option<string>, flag: Option<string>,
    tag: Option<string>, distance: Option<string>, labelStr: Option<string>,
    table: Option<string>, onlink: bool, color: Option<string>,
    bfd: bool, bfdMhop: bool, bfdProfile: Option<string>,
    routeGroup: Option<string>, pm: bool, bfdLocal: Option<string>,
    bfdAutohop: bool)

  /**
   * What the foreign parsers report: the destination prefix as printed after
   * masking (None when `str2prefix` fails), whether `inet_aton` accepted the
   * mask, the source prefix as printed (None when it fails to parse or is not
   * IPv6), and the raw `atoi`/`strtoul`/`atol` results.
   */
  datatype Parsed = Parsed(
    prefix: Option<string>, maskOk: bool, srcPrefix: Option<string>,
    distance: int, tag: int, table: int)

  /** Why a command is refused, in the order the checks run. */
  datatype Reject =
    | MalformedAddress
    | PmWithoutGateway
    | MalformedMask
    | MalformedSource
    | BfdWithoutGateway
    | BfdWithRouteGroup
    | BfdMultihopWithOnlink

  /** Every argument combination the function accepts, stated as one conjunction. */
  predicate Acceptable(a: RouteArgs, p: Parsed)
  {
    p.prefix.Some? &&
    (a.pm ==> a.gate.Some?) &&
    (a.afi == AfiIp && a.mask.Some? ==> p.maskOk) &&
    (a.afi == AfiIp6 && a.src.Some? ==> p.srcPrefix.Some?) &&
    (a.bfd ==> a.gate.Some? && a.routeGroup.None?) &&
    !(a.onlink && a.bfdMhop)
  }

  /** The first check that refuses the command, if any. */
  function Rejection(a: RouteArgs, p: Parsed): (r: Option<Reject>)
    ensures r.None? <==> Acceptable(a, p)
    ensures r == Some(PmWithoutGateway) ==> a.pm && a.gate.None?
    ensures r == Some(BfdWithoutGateway) ==> a.bfd && a.gate.None? && !a.pm
    ensures r == Some(BfdWithRouteGroup) ==> a.bfd && a.routeGroup.Some? && a.gate.Some?
    ensures r == Some(BfdMultihopWithOnlink) ==> a.onlink && a.bfdMhop
  {
    if p.prefix.None? then Some(MalformedAddress)
    else if a.gate.None? && a.pm then Some(PmWithoutGateway)
    else if a.afi == AfiIp && a.mask.Some? && !p.maskOk then Some(MalformedMask)
    else if a.afi == AfiIp6 && a.src.Some? && p.srcPrefix.None? then Some(MalformedSource)
    else if a.gate.None? && a.bfd then Some(BfdWithoutGateway)
    else if a.routeGroup.Some? && a.bfd then Some(BfdWithRouteGroup)
    else if a.onlink && a.bfdMhop then Some(BfdMultihopWithOnlink)
    else None
  }

  /** The nexthop type chosen from which of gateway and interface are given. */
  function NexthopType(gate: bool, ifname: bool, afi: Afi): (r: NhType)
    ensures HasGateway(r) <==> gate
    ensures HasInterface(r) <==> ifname
    ensures IsIpv6(r) <==> gate && afi != AfiIp
  {
    if !gate && !ifname then Blackhole
    else if gate && ifname then (if afi == AfiIp then Ipv4GatewayIfname else Ipv6GatewayIfname)
    else if ifname then Ifname
    else if afi == AfiIp then Ipv4Gateway
    else Ipv6Gateway
  }

  /** The three gateway/interface types the source distinguishes fix the type completely. */
  lemma NexthopTypeDetermined(t: NhType, u: NhType)
    requires HasGateway(t) == HasGateway(u) && HasInterface(t) == HasInterface(u) && IsIpv6(t) == IsIpv6(u)
    ensures t == u
  {
  }

  /** The administrative distance, stored in a `uint8_t`. */
  function Distance(a: RouteArgs, p: Parsed): (d: nat)
    ensures d < U8Range
    ensures a.distance.None? ==> d == StaticDistanceDefault
  {
    if a.distance.Some? then p.distance % U8Range else StaticDistanceDefault
  }

  /** The route tag, stored in a 32-bit `route_tag_t`. */
  function Tag(a: RouteArgs, p: Parsed): (t: nat)
    ensures t < U32Range
    ensures a.tag.None? ==> t == 0
  {
    if a.tag.Some? then p.tag % U32Range else 0
  }

  /** The table id, stored in a `uint32_t`. */
  function TableId(a: RouteArgs, p: Parsed): (t: nat)
    ensures t < U32Range
    ensures a.table.None? ==> t == 0
  {
    if a.table.Some? then p.table % U32Range else 0
  }

  // ---- xpaths and changes ----

  /** The keys of a route entry that every route xpath format takes. */
  datatype RouteKey = RouteKey(vrf: string, prefix: string, afi: Afi, safi: Safi, src: Option<string>, table: nat)

  /** The keys of a nexthop entry (`FRR_STATIC_ROUTE_NH_KEY_XPATH`); the interface is formatted as given, NULL included. */
  datatype NhKey = NhKey(nhType: NhType, vrf: string, gate: string, ifname: Option<string>)

  /** The leaf and container suffixes appended to a route or nexthop xpath. */
  datatype Leaf =
    | TagLeaf | BhTypeLeaf | OnlinkLeaf | ColorLeaf | PmLeaf | MplsLeaf | LabelEntry(id: nat)
    | BfdLeaf | BfdMultiHopLeaf | BfdProfileLeaf | BfdSourceLeaf | BfdAutoHopLeaf | BfdGroupLeaf

  datatype Xpath =
    | PathList(route: RouteKey, distance: nat)
    | NexthopAnyDistance(route: RouteKey, nh: NhKey)
    | Nexthop(parent: Xpath, nh: NhKey)
    | Sub(parent: Xpath, leaf: Leaf)

  /** `x` is `b` or lies below it, the changes `nb_cli_apply_changes(vty, b)` applies relative to `b`. */
  predicate Under(x: Xpath, b: Xpath)
  {
    x == b || (x.Nexthop? && Under(x.parent, b)) || (x.Sub? && Under(x.parent, b))
  }

  /** `NB_OP_CREATE`, `NB_OP_MODIFY`, `NB_OP_DESTROY`. */
  datatype Op = Create | Modify | Destroy

  /** A change value: a string, or a number that `snprintf("%u")` formats. */
  datatype Value = Text(s: string) | Decimal(n: nat)

  /** One `nb_cli_enqueue_change` call; a NULL value is None. */
  datatype Change = Change(xpath: Xpath, op: Op, value: Option<Value>)

  /** The vty's queue of pending configuration changes. */
  class Vty {
    var changes: seq<Change>

    constructor ()
      ensures changes == []
    {
      changes := [];
    }

    /** `nb_cli_enqueue_change`: appends one change. */
    method EnqueueChange(x: Xpath, op: Op, v: Option<Value>)
      modifies this
      ensures changes == old(changes) + [Change(x, op, v)]
    {
      changes := changes + [Change(x, op, v)];
    }
  }

  function BoolText(b: bool): string
  {
    if b then TrueText else FalseText
  }

  function RouteKeyOf(a: RouteArgs, p: Parsed): RouteKey
  {
    RouteKey(a.svrf, p.prefix.GetOr(""), a.afi, a.safi,
             if a.src.Some? then Some(p.srcPrefix.GetOr("")) else None, TableId(a, p))
  }

  function NhKeyOf(a: RouteArgs): NhKey
  {
    NhKey(NexthopType(a.gate.Some?, a.ifname.Some?, a.afi), a.nhVrf, a.gate.GetOr(""), a.ifname)
  }

  /** The xpath `static_route_leak` looks the nexthop up by, whatever its distance. */
  function LookupKey(a: RouteArgs, p: Parsed): Xpath
  {
    NexthopAnyDistance(RouteKeyOf(a, p), NhKeyOf(a))
  }

  /** `xpath_prefix`: the route's path-list entry for its distance. */
  function PrefixXpath(a: RouteArgs, p: Parsed): Xpath
  {
    PathList(RouteKeyOf(a, p), Distance(a, p))
  }

  /** `xpath_nexthop`: the nexthop entry under the path list. */
  function NexthopXpath(a: RouteArgs, p: Parsed): Xpath
  {
    Nexthop(PrefixXpath(a, p), NhKeyOf(a))
  }

  /** The blackhole-type value for the route flag: 'r', 'b' and 'N' select reject, unspec and null; no flag means null. */
  function BlackholeValue(flag: Option<string>): Option<Value>
  {
    match flag
    case None => Some(Text(NullText))
    case Some(f) =>
      if |f| == 0 then None
      else if f[0] == 'r' then Some(Text(RejectText))
      else if f[0] == 'b' then Some(Text(UnspecText))
      else if f[0] == 'N' then Some(Text(NullText))
      else None
  }

  /** The leaves set on the nexthop itself: blackhole type, onlink, color and path monitoring. */
  function LeafChanges(nh: Xpath, t: NhType, a: RouteArgs): seq<Change>
  {
    BlackholeBlock(nh, t, a) + OnlinkBlock(nh, t, a) + GatewayBlock(nh, t, a)
  }

  /** The blackhole type, for a blackhole nexthop only. */
  function BlackholeBlock(nh: Xpath, t: NhType, a: RouteArgs): seq<Change>
  {
    if t == Blackhole then [Change(Sub(nh, BhTypeLeaf), Modify, BlackholeValue(a.flag))] else []
  }

  /** The onlink flag, for gateway-plus-interface nexthops only. */
  function OnlinkBlock(nh: Xpath, t: NhType, a: RouteArgs): seq<Change>
  {
    if t == Ipv4GatewayIfname || t == Ipv6GatewayIfname
    then [Change(Sub(nh, OnlinkLeaf), Modify, Some(Text(BoolText(a.onlink))))] else []
  }

  /** The color (when given) and the path-monitoring flag, for gateway nexthops only. */
  function GatewayBlock(nh: Xpath, t: NhType, a: RouteArgs): seq<Change>
  {
    if HasGateway(t)
    then (if a.color.Some? then [Change(Sub(nh, ColorLeaf), Modify, Some(Text(a.color.value)))] else [])
         + [Change(Sub(nh, PmLeaf), Modify, Some(Text(BoolText(a.pm))))]
    else []
  }

  // ---- label splitting ----

  /** The index of the first '/' in `s`. */
  function SlashIndex(s: string): (r: Option<nat>)
    ensures r.Some? ==> r.value < |s| && s[r.value] == '/' && '/' !in s[..r.value]
    ensures r.None? ==> '/' !in s
  {
    if |s| == 0 then None
    else if s[0] == '/' then Some(0)
    else
      match SlashIndex(s[1..])
      case None => None
      case Some(i) =>
        assert s[..i + 1] == [s[0]] + s[1..][..i];
        Some(i + 1)
  }

  /** One `strsep(&s, "/")` step: the token before the first slash and what remains after it (None once no slash is left). */
  function Strsep(s: string): (r: (string, Option<string>))
    ensures '/' !in r.0
    ensures r.1.Some? ==> |r.1.value| < |s| && s == r.0 + "/" + r.1.value
    ensures r.1.None? ==> r.0 == s
  {
    match SlashIndex(s)
    case None => (s, None)
    case Some(i) =>
      assert s == s[..i] + "/" + s[i + 1..];
      (s[..i], Some(s[i + 1..]))
  }

  /** The tokens `strsep` yields from a label string: one per slash plus one, empty ones included. */
  function SplitSlash(s: string): (r: seq<string>)
    ensures |r| >= 1
    decreases |s|
  {
    var (tok, rest) := Strsep(s);
    if rest.None? then [tok] else [tok] + SplitSlash(rest.value)
  }

  /** The tokens still to come once `strsep` has left `ostr`. */
  function Pending(ostr: Option<string>): seq<string>
  {
    match ostr
    case None => []
    case Some(s) => SplitSlash(s)
  }

  /** The label stack joined back with slashes. */
  function JoinSlash(segs: seq<string>): string
    requires |segs| >= 1
  {
    if |segs| == 1 then segs[0] else segs[0] + "/" + JoinSlash(segs[1..])
  }

  /** Splitting loses nothing: joining the tokens rebuilds the label string, and no token holds a slash. */
  lemma {:induction false} SplitJoin(s: string)
    ensures JoinSlash(SplitSlash(s)) == s
    ensures forall i :: 0 <= i < |SplitSlash(s)| ==> '/' !in SplitSlash(s)[i]
    decreases |s|
  {
    var (tok, rest) := Strsep(s);
    if rest.Some? {
      SplitJoin(rest.value);
      var r := SplitSlash(s);
      assert r == [tok] + SplitSlash(rest.value);
      assert r[1..] == SplitSlash(rest.value);
    }
  }

  /** And the other direction: slash-free tokens come back unchanged from their join. */
  lemma {:induction false} JoinSplit(segs: seq<string>)
    requires |segs| >= 1
    requires forall i :: 0 <= i < |segs| ==> '/' !in segs[i]
    ensures SplitSlash(JoinSlash(segs)) == segs
  {
    if |segs| == 1 {
      assert SlashIndex(segs[0]).None?;
    } else {
      var s := JoinSlash(segs);
      var rest := JoinSlash(segs[1..]);
      assert s == segs[0] + "/" + rest;
      JoinSplit(segs[1..]);
      FirstSlashAt(segs[0], rest);
    }
  }

  /** `strsep` stops at the slash that follows a slash-free token. */
  lemma FirstSlashAt(tok: string, rest: string)
    requires '/' !in tok
    ensures Strsep(tok + "/" + rest) == (tok, Some(rest))
  {
    var s := tok + "/" + rest;
    SlashAfter(tok, rest);
    assert s[..|tok|] == tok;
    assert s[|tok| + 1..] == rest;
  }

  lemma {:induction false} SlashAfter(tok: string, rest: string)
    requires '/' !in tok
    ensures SlashIndex(tok + "/" + rest) == Some(|tok|)
  {
    var s := tok + "/" + rest;
    if tok != [] {
      assert tok[0] in tok;
      assert s[1..] == tok[1..] + "/" + rest;
      assert forall c :: c in tok[1..] ==> c in tok;
      SlashAfter(tok[1..], rest);
    }
  }

  /** The label-entry modifications for `segs`, numbered from `id` with a `uint8_t` counter. */
  function LabelChanges(mpls: Xpath, segs: seq<string>, id: nat): seq<Change>
    requires id < U8Range
  {
    if segs == [] then []
    else [Change(Sub(mpls, LabelEntry(id)), Modify, Some(Text(segs[0])))] + LabelChanges(mpls, segs[1..], (id + 1) % U8Range)
  }

  /** The label list is destroyed, then each segment is set under stack ids 0, 1, 2 and so on. */
  function LabelSection(nh: Xpath, labelStr: Option<string>): seq<Change>
  {
    [Change(Sub(nh, MplsLeaf), Destroy, None)]
    + (if labelStr.Some? then LabelChanges(Sub(nh, MplsLeaf), SplitSlash(labelStr.value), 0) else [])
  }

  /** Entry `i` of the label changes is the `i`-th segment under stack id `id + i` modulo 256. */
  lemma {:induction false} LabelChangeAt(mpls: Xpath, segs: seq<string>, id: nat, i: nat)
    requires id < U8Range && i < |segs|
    ensures |LabelChanges(mpls, segs, id)| == |segs|
    ensures LabelChanges(mpls, segs, id)[i] == Change(Sub(mpls, LabelEntry((id + i) % U8Range)), Modify, Some(Text(segs[i])))
  {
    if i == 0 {
      LabelLength(mpls, segs, id);
    } else {
      var next := (id + 1) % U8Range;
      LabelChangeAt(mpls, segs[1..], next, i - 1);
      assert (next + (i - 1)) % U8Range == (id + i) % U8Range;
    }
  }

  lemma {:induction false} LabelLength(mpls: Xpath, segs: seq<string>, id: nat)
    requires id < U8Range
    ensures |LabelChanges(mpls, segs, id)| == |segs|
  {
    if segs != [] {
      LabelLength(mpls, segs[1..], (id + 1) % U8Range);
    }
  }

  // ---- BFD and route group ----

  /** The BFD monitoring leaves; a route with a source prefix gets none of them. */
  function BfdChanges(nh: Xpath, a: RouteArgs): seq<Change>
  {
    if a.bfd && a.src.None? then
      [Change(Sub(nh, BfdLeaf), Create, None),
       Change(Sub(nh, BfdMultiHopLeaf), Modify, Some(Text(BoolText(a.bfdMhop)))),
       if a.bfdProfile.Some? then Change(Sub(nh, BfdProfileLeaf), Modify, Some(Text(a.bfdProfile.value)))
       else Change(Sub(nh, BfdProfileLeaf), Destroy, None),
       if a.bfdLocal.Some? then Change(Sub(nh, BfdSourceLeaf), Modify, Some(Text(a.bfdLocal.value)))
       else Change(Sub(nh, BfdSourceLeaf), Destroy, None),
       Change(Sub(nh, BfdAutoHopLeaf), Modify, Some(Text(BoolText(a.bfdAutohop))))]
    else if a.src.None? then [Change(Sub(nh, BfdLeaf), Destroy, None)]
    else []
  }

  /** The route-group leaves, again only for a route without a source prefix. */
  function GroupChanges(nh: Xpath, a: RouteArgs): seq<Change>
  {
    if a.routeGroup.Some? && a.src.None? then
      [Change(Sub(nh, BfdLeaf), Create, None), Change(Sub(nh, BfdGroupLeaf), Modify, Some(Text(a.routeGroup.value)))]
    else if a.src.None? then [Change(Sub(nh, BfdGroupLeaf), Destroy, None)]
    else []
  }

  /** What an accepted add queues for the route itself, from the path-list creation on. */
  function RouteChanges(a: RouteArgs, p: Parsed): seq<Change>
  {
    var prefix := PrefixXpath(a, p);
    var nh := NexthopXpath(a, p);
    [Change(prefix, Create, None),
     Change(Sub(prefix, TagLeaf), Modify, Some(Decimal(Tag(a, p)))),
     Change(nh, Create, None)]
    + LeafChanges(nh, NhKeyOf(a).nhType, a)
    + LabelSection(nh, a.labelStr)
    + BfdChanges(nh, a)
    + GroupChanges(nh, a)
  }

  /** The destroy that replaces the same nexthop under another distance, when the candidate holds one. */
  function Replacement(a: RouteArgs, p: Parsed, candidate: map<Xpath, Xpath>): seq<Change>
  {
    var k := LookupKey(a, p);
    if k in candidate then [Change(candidate[k], Destroy, None)] else []
  }

  /** Everything an accepted add queues. */
  function AddChanges(a: RouteArgs, p: Parsed, candidate: map<Xpath, Xpath>): seq<Change>
  {
    Replacement(a, p, candidate) + RouteChanges(a, p)
  }

  // ---- the command ----

  /** The nexthop leaf block: blackhole type, onlink, then color and path monitoring. */
  method EnqueueLeaves(vty: Vty, nh: Xpath, t: NhType, a: RouteArgs)
    modifies vty
    ensures vty.changes == old(vty.changes) + LeafChanges(nh, t, a)
  {
    EnqueueBlackhole(vty, nh, t, a);
    EnqueueOnlink(vty, nh, t, a);
    EnqueueGateway(vty, nh, t, a);
    Assoc(old(vty.changes), BlackholeBlock(nh, t, a), OnlinkBlock(nh, t, a));
    Assoc(old(vty.changes), BlackholeBlock(nh, t, a) + OnlinkBlock(nh, t, a), GatewayBlock(nh, t, a));
  }

  /** The blackhole-type leaf of a blackhole nexthop, from the first letter of the flag. */
  method EnqueueBlackhole(vty: Vty, nh: Xpath, t: NhType, a: RouteArgs)
    modifies vty
    ensures vty.changes == old(vty.changes) + BlackholeBlock(nh, t, a)
  {
    if t == Blackhole {
      if a.flag.Some? {
        var bhType: Option<Value>;
        var f := a.flag.value;
        if |f| == 0 {
          bhType := None;
        } else if f[0] == 'r' {
          bhType := Some(Text(RejectText));
        } else if f[0] == 'b' {
          bhType := Some(Text(UnspecText));
        } else if f[0] == 'N' {
          bhType := Some(Text(NullText));
        } else {
          bhType := None;
        }
        vty.EnqueueChange(Sub(nh, BhTypeLeaf), Modify, bhType);
      } else {
        vty.EnqueueChange(Sub(nh, BhTypeLeaf), Modify, Some(Text(NullText)));
      }
    }
  }

  /** The onlink leaf of a gateway-plus-interface nexthop. */
  method EnqueueOnlink(vty: Vty, nh: Xpath, t: NhType, a: RouteArgs)
    modifies vty
    ensures vty.changes == old(vty.changes) + OnlinkBlock(nh, t, a)
  {
    if t == Ipv4GatewayIfname || t == Ipv6GatewayIfname {
      vty.EnqueueChange(Sub(nh, OnlinkLeaf), Modify, Some(Text(BoolText(a.onlink))));
    }
  }

  /** The color leaf (when a color is given) and the path-monitoring leaf of a gateway nexthop. */
  method EnqueueGateway(vty: Vty, nh: Xpath, t: NhType, a: RouteArgs)
    modifies vty
    ensures vty.changes == old(vty.changes) + GatewayBlock(nh, t, a)
  {
    if t == Ipv4Gateway || t == Ipv6Gateway || t == Ipv4GatewayIfname || t == Ipv6GatewayIfname {
      ghost var c0 := vty.changes;
      if a.color.Some? {
        vty.EnqueueChange(Sub(nh, ColorLeaf), Modify, Some(Text(a.color.value)));
      }
      ghost var c1 := vty.changes;
      if a.pm {
        vty.EnqueueChange(Sub(nh, PmLeaf), Modify, Some(Text(TrueText)));
      } else {
        vty.EnqueueChange(Sub(nh, PmLeaf), Modify, Some(Text(FalseText)));
      }
      Assoc(c0, if a.color.Some? then [Change(Sub(nh, ColorLeaf), Modify, Some(Text(a.color.value)))] else [],
            [Change(Sub(nh, PmLeaf), Modify, Some(Text(BoolText(a.pm))))]);
    }
  }

  /** The label block: destroy the list, then `strsep` the label string on '/' and set one entry per token. */
  method EnqueueLabels(vty: Vty, nh: Xpath, labelStr: Option<string>)
    modifies vty
    ensures vty.changes == old(vty.changes) + LabelSection(nh, labelStr)
  {
    var mpls := Sub(nh, MplsLeaf);
    vty.EnqueueChange(mpls, Destroy, None);
    if labelStr.Some? {
      ghost var target := old(vty.changes) + LabelSection(nh, labelStr);
      Assoc(old(vty.changes), [Change(mpls, Destroy, None)], LabelChanges(mpls, SplitSlash(labelStr.value), 0));
      var ostr: Option<string> := labelStr;
      var labelStackId: nat := 0;
      while ostr.Some?
        invariant labelStackId < U8Range
        invariant vty.changes + LabelChanges(mpls, Pending(ostr), labelStackId) == target
        decreases if ostr.Some? then |ostr.value| + 1 else 0
      {
        ghost var before := vty.changes;
        LabelStep(mpls, ostr.value, labelStackId);
        var (nump, rest) := Strsep(ostr.value);
        var c := Change(Sub(mpls, LabelEntry(labelStackId)), Modify, Some(Text(nump)));
        vty.EnqueueChange(c.xpath, c.op, c.value);
        labelStackId := (labelStackId + 1) % U8Range;
        ostr := rest;
        Assoc(before, [c], LabelChanges(mpls, Pending(ostr), labelStackId));
      }
    }
  }

  lemma Assoc(c1: seq<Change>, c2: seq<Change>, c3: seq<Change>)
    ensures c1 + c2 + c3 == c1 + (c2 + c3)
  {
  }

  /** One `strsep` step emits the entry for the first token and leaves the rest of the list to the remainder. */
  lemma LabelStep(mpls: Xpath, s: string, id: nat)
    requires id < U8Range
    ensures LabelChanges(mpls, Pending(Some(s)), id) ==
            [Change(Sub(mpls, LabelEntry(id)), Modify, Some(Text(Strsep(s).0)))] + LabelChanges(mpls, Pending(Strsep(s).1), (id + 1) % U8Range)
  {
    var segs := SplitSlash(s);
    assert segs[0] == Strsep(s).0;
    assert segs[1..] == Pending(Strsep(s).1);
  }

  method EnqueueBfd(vty: Vty, nh: Xpath, a: RouteArgs)
    modifies vty
    ensures vty.changes == old(vty.changes) + BfdChanges(nh, a) + GroupChanges(nh, a)
  {
    if a.bfd && a.src.None? {
      vty.EnqueueChange(Sub(nh, BfdLeaf), Create, None);
      vty.EnqueueChange(Sub(nh, BfdMultiHopLeaf), Modify, Some(Text(BoolText(a.bfdMhop))));
      if a.bfdProfile.Some? {
        vty.EnqueueChange(Sub(nh, BfdProfileLeaf), Modify, Some(Text(a.bfdProfile.value)));
      } else {
        vty.EnqueueChange(Sub(nh, BfdProfileLeaf), Destroy, None);
      }
      if a.bfdLocal.Some? {
        vty.EnqueueChange(Sub(nh, BfdSourceLeaf), Modify, Some(Text(a.bfdLocal.value)));
      } else {
        vty.EnqueueChange(Sub(nh, BfdSourceLeaf), Destroy, None);
      }
      vty.EnqueueChange(Sub(nh, BfdAutoHopLeaf), Modify, Some(Text(BoolText(a.bfdAutohop))));
    } else if a.src.None? {
      vty.EnqueueChange(Sub(nh, BfdLeaf), Destroy, None);
    }
    ghost var afterBfd := vty.changes;
    assert afterBfd == old(vty.changes) + BfdChanges(nh, a);
    if a.routeGroup.Some? && a.src.None? {
      vty.EnqueueChange(Sub(nh, BfdLeaf), Create, None);
      vty.EnqueueChange(Sub(nh, BfdGroupLeaf), Modify, Some(Text(a.routeGroup.value)));
    } else if a.src.None? {
      vty.EnqueueChange(Sub(nh, BfdGroupLeaf), Destroy, None);
    }
    assert vty.changes == afterBfd + GroupChanges(nh, a);
  }

  /**
   * `static_route_leak`. `applyRet` is what `nb_cli_apply_changes` returns;
   * `appliedAt` is the base xpath it is called with (None when it is not called).
   */
  method StaticRouteLeak(vty: Vty, a: RouteArgs, p: Parsed, candidate: map<Xpath, Xpath>, applyRet: int)
    returns (ret: int, appliedAt: Option<Xpath>)
    modifies vty
    ensures Rejection(a, p).Some? ==>
              ret == CmdWarningConfigFailed && appliedAt.None? && vty.changes == old(vty.changes)
    ensures Rejection(a, p).None? && !a.negate ==>
              ret == applyRet && appliedAt == Some(PrefixXpath(a, p)) &&
              vty.changes == old(vty.changes) + AddChanges(a, p, candidate)
    ensures Rejection(a, p).None? && a.negate && LookupKey(a, p) !in candidate ==>
              ret == CmdSuccess && appliedAt.None? && vty.changes == old(vty.changes)
    ensures Rejection(a, p).None? && a.negate && LookupKey(a, p) in candidate ==>
              var x := candidate[LookupKey(a, p)];
              ret == applyRet && appliedAt == Some(x) && vty.changes == old(vty.changes) + [Change(x, Destroy, None)]
  {
    // The seven argument checks, in the order `Rejection` lists them; each one warns and fails.
    if Rejection(a, p).Some? {
      return CmdWarningConfigFailed, None;
    }
    var t := NexthopType(a.gate.Some?, a.ifname.Some?, a.afi);
    var abXpath := LookupKey(a, p);
    if !a.negate {
      var xpathPrefix := AddRoute(vty, a, p, t, candidate);
      ret := applyRet;
      appliedAt := Some(xpathPrefix);
    } else {
      if abXpath !in candidate {
        return CmdSuccess, None;
      }
      var x := candidate[abXpath];
      vty.EnqueueChange(x, Destroy, None);
      ret := applyRet;
      appliedAt := Some(x);
    }
  }

  /** An accepted add: drop the same nexthop under another distance, then queue the route. */
  method AddRoute(vty: Vty, a: RouteArgs, p: Parsed, t: NhType, candidate: map<Xpath, Xpath>) returns (xpathPrefix: Xpath)
    requires t == NhKeyOf(a).nhType
    modifies vty
    ensures xpathPrefix == PrefixXpath(a, p)
    ensures vty.changes == old(vty.changes) + AddChanges(a, p, candidate)
  {
    var abXpath := LookupKey(a, p);
    if abXpath in candidate {
      vty.EnqueueChange(candidate[abXpath], Destroy, None);
    }
    xpathPrefix := EnqueueRoute(vty, a, p, t);
    Assoc(old(vty.changes), Replacement(a, p, candidate), RouteChanges(a, p));
  }

  /** The changes of a route addition, from the prefix list entry down to its BFD and group leaves. */
  method EnqueueRoute(vty: Vty, a: RouteArgs, p: Parsed, t: NhType) returns (xpathPrefix: Xpath)
    requires t == NhKeyOf(a).nhType
    modifies vty
    ensures xpathPrefix == PrefixXpath(a, p)
    ensures vty.changes == old(vty.changes) + RouteChanges(a, p)
  {
    ghost var c0 := vty.changes;
    xpathPrefix := PrefixXpath(a, p);
    vty.EnqueueChange(xpathPrefix, Create, None);
    vty.EnqueueChange(Sub(xpathPrefix, TagLeaf), Modify, Some(Decimal(Tag(a, p))));
    var xpathNexthop := Nexthop(xpathPrefix, NhKeyOf(a));
    vty.EnqueueChange(xpathNexthop, Create, None);
    ghost var c3 := vty.changes;
    EnqueueLeaves(vty, xpathNexthop, t, a);
    ghost var c4 := vty.changes;
    EnqueueLabels(vty, xpathNexthop, a.labelStr);
    ghost var c5 := vty.changes;
    EnqueueBfd(vty, xpathNexthop, a);
    RouteChain(a, p, c0, c3, c4, c5, vty.changes);
  }

  /** The appends of the add path chain up to exactly `RouteChanges`. */
  lemma RouteChain(a: RouteArgs, p: Parsed, c0: seq<Change>, c3: seq<Change>, c4: seq<Change>, c5: seq<Change>, c6: seq<Change>)
    requires var prefix := PrefixXpath(a, p);
             c3 == c0 + [Change(prefix, Create, None)] + [Change(Sub(prefix, TagLeaf), Modify, Some(Decimal(Tag(a, p))))]
                   + [Change(NexthopXpath(a, p), Create, None)]
    requires c4 == c3 + LeafChanges(NexthopXpath(a, p), NhKeyOf(a).nhType, a)
    requires c5 == c4 + LabelSection(NexthopXpath(a, p), a.labelStr)
    requires c6 == c5 + BfdChanges(NexthopXpath(a, p), a) + GroupChanges(NexthopXpath(a, p), a)
    ensures c6 == c0 + RouteChanges(a, p)
  {
    var prefix := PrefixXpath(a, p);
    var nh := NexthopXpath(a, p);
    var head := [Change(prefix, Create, None), Change(Sub(prefix, TagLeaf), Modify, Some(Decimal(Tag(a, p)))), Change(nh, Create, None)];
    var leaves := LeafChanges(nh, NhKeyOf(a).nhType, a);
    var labels := LabelSection(nh, a.labelStr);
    var bfd := BfdChanges(nh, a);
    var group := GroupChanges(nh, a);
    assert c3 == c0 + head;
    Assoc(c0, head, leaves);
    Assoc(c0, head + leaves, labels);
    Assoc(c0, head + leaves + labels, bfd);
    Assoc(c0, head + leaves + labels + bfd, group);
  }

  // ---- properties of the change list ----

  /** How many queued changes address `x`. */
  function CountAt(cs: seq<Change>, x: Xpath): nat
  {
    if cs == [] then 0 else (if cs[0].xpath == x then 1 else 0) + CountAt(cs[1..], x)
  }

  lemma {:induction false} CountAppend(c1: seq<Change>, c2: seq<Change>, x: Xpath)
    ensures CountAt(c1 + c2, x) == CountAt(c1, x) + CountAt(c2, x)
  {
    if c1 != [] {
      assert (c1 + c2)[0] == c1[0];
      assert (c1 + c2)[1..] == c1[1..] + c2;
      CountAppend(c1[1..], c2, x);
    } else {
      assert c1 + c2 == c2;
    }
  }

  lemma {:induction false} CountNone(cs: seq<Change>, x: Xpath)
    requires forall i :: 0 <= i < |cs| ==> cs[i].xpath != x
    ensures CountAt(cs, x) == 0
  {
    if cs != [] {
      CountNone(cs[1..], x);
    }
  }

  /** Every label change addresses an entry of the label list. */
  lemma {:induction false} LabelXpaths(mpls: Xpath, segs: seq<string>, id: nat)
    requires id < U8Range
    ensures forall i :: 0 <= i < |LabelChanges(mpls, segs, id)| ==>
              LabelChanges(mpls, segs, id)[i].xpath.Sub? &&
              LabelChanges(mpls, segs, id)[i].xpath.parent == mpls &&
              LabelChanges(mpls, segs, id)[i].xpath.leaf.LabelEntry?
  {
    if segs != [] {
      LabelXpaths(mpls, segs[1..], (id + 1) % U8Range);
    }
  }

  /** A nexthop leaf other than the label list's is addressed by no change of the label, BFD or group blocks. */
  lemma OtherBlocksAvoid(nh: Xpath, a: RouteArgs, l: Leaf)
    requires l == BhTypeLeaf || l == OnlinkLeaf || l == ColorLeaf || l == PmLeaf
    ensures CountAt(LabelSection(nh, a.labelStr) + BfdChanges(nh, a) + GroupChanges(nh, a), Sub(nh, l)) == 0
  {
    var x := Sub(nh, l);
    if a.labelStr.Some? {
      LabelXpaths(Sub(nh, MplsLeaf), SplitSlash(a.labelStr.value), 0);
    }
    CountNone(LabelSection(nh, a.labelStr) + BfdChanges(nh, a) + GroupChanges(nh, a), x);
  }

  /** The head of the route changes addresses no nexthop leaf. */
  lemma HeadAvoids(a: RouteArgs, p: Parsed, l: Leaf)
    ensures var prefix := PrefixXpath(a, p);
            var nh := NexthopXpath(a, p);
            CountAt([Change(prefix, Create, None), Change(Sub(prefix, TagLeaf), Modify, Some(Decimal(Tag(a, p)))), Change(nh, Create, None)], Sub(nh, l)) == 0
  {
    var prefix := PrefixXpath(a, p);
    var nh := NexthopXpath(a, p);
    CountNone([Change(prefix, Create, None), Change(Sub(prefix, TagLeaf), Modify, Some(Decimal(Tag(a, p)))), Change(nh, Create, None)], Sub(nh, l));
  }

  /** Splits the route changes into the head, the nexthop leaves and the rest when counting a nexthop leaf. */
  lemma CountLeaf(a: RouteArgs, p: Parsed, l: Leaf)
    requires l == BhTypeLeaf || l == OnlinkLeaf || l == ColorLeaf || l == PmLeaf
    ensures CountAt(RouteChanges(a, p), Sub(NexthopXpath(a, p), l)) == CountAt(LeafChanges(NexthopXpath(a, p), NhKeyOf(a).nhType, a), Sub(NexthopXpath(a, p), l))
  {
    var prefix := PrefixXpath(a, p);
    var nh := NexthopXpath(a, p);
    var head := [Change(prefix, Create, None), Change(Sub(prefix, TagLeaf), Modify, Some(Decimal(Tag(a, p)))), Change(nh, Create, None)];
    var leaves := LeafChanges(nh, NhKeyOf(a).nhType, a);
    var tail := LabelSection(nh, a.labelStr) + BfdChanges(nh, a) + GroupChanges(nh, a);
    assert RouteChanges(a, p) == head + leaves + tail;
    CountAppend(head + leaves, tail, Sub(nh, l));
    CountAppend(head, leaves, Sub(nh, l));
    HeadAvoids(a, p, l);
    OtherBlocksAvoid(nh, a, l);
  }

  /**
   * The nexthop leaves of an accepted add: a blackhole-type leaf exactly for a
   * blackhole nexthop, an onlink leaf exactly for gateway-plus-interface
   * nexthops, a color leaf exactly for gateway nexthops given a color, and a
   * path-monitoring leaf exactly for gateway nexthops, each set once.
   */
  lemma NexthopLeaves(a: RouteArgs, p: Parsed)
    ensures var nh := NexthopXpath(a, p);
            CountAt(RouteChanges(a, p), Sub(nh, BhTypeLeaf)) == (if a.gate.None? && a.ifname.None? then 1 else 0) &&
            CountAt(RouteChanges(a, p), Sub(nh, OnlinkLeaf)) == (if a.gate.Some? && a.ifname.Some? then 1 else 0) &&
            CountAt(RouteChanges(a, p), Sub(nh, ColorLeaf)) == (if a.gate.Some? && a.color.Some? then 1 else 0) &&
            CountAt(RouteChanges(a, p), Sub(nh, PmLeaf)) == (if a.gate.Some? then 1 else 0)
  {
    LeafCount(a, p, BhTypeLeaf);
    LeafCount(a, p, OnlinkLeaf);
    LeafCount(a, p, ColorLeaf);
    LeafCount(a, p, PmLeaf);
  }

  /** How many times an add sets nexthop leaf `l`, by the rules `NexthopLeaves` spells out. */
  function ExpectedLeafCount(a: RouteArgs, l: Leaf): nat
  {
    match l
    case BhTypeLeaf => if a.gate.None? && a.ifname.None? then 1 else 0
    case OnlinkLeaf => if a.gate.Some? && a.ifname.Some? then 1 else 0
    case ColorLeaf => if a.gate.Some? && a.color.Some? then 1 else 0
    case PmLeaf => if a.gate.Some? then 1 else 0
    case _ => 0
  }

  lemma LeafCount(a: RouteArgs, p: Parsed, l: Leaf)
    requires l == BhTypeLeaf || l == OnlinkLeaf || l == ColorLeaf || l == PmLeaf
    ensures CountAt(RouteChanges(a, p), Sub(NexthopXpath(a, p), l)) == ExpectedLeafCount(a, l)
  {
    CountLeaf(a, p, l);
    LeafChangesCount(NexthopXpath(a, p), NhKeyOf(a).nhType, a, l);
  }

  /** The nexthop leaf block sets each leaf at most once, as the nexthop type selects. */
  lemma LeafChangesCount(nh: Xpath, t: NhType, a: RouteArgs, l: Leaf)
    ensures CountAt(LeafChanges(nh, t, a), Sub(nh, l)) ==
              (if l == BhTypeLeaf && t == Blackhole then 1 else 0) +
              (if l == OnlinkLeaf && (t == Ipv4GatewayIfname || t == Ipv6GatewayIfname) then 1 else 0) +
              (if l == ColorLeaf && HasGateway(t) && a.color.Some? then 1 else 0) +
              (if l == PmLeaf && HasGateway(t) then 1 else 0)
  {
    var x := Sub(nh, l);
    CountAppend(BlackholeBlock(nh, t, a) + OnlinkBlock(nh, t, a), GatewayBlock(nh, t, a), x);
    CountAppend(BlackholeBlock(nh, t, a), OnlinkBlock(nh, t, a), x);
    CountSmall(BlackholeBlock(nh, t, a), x);
    CountSmall(OnlinkBlock(nh, t, a), x);
    GatewayBlockCount(nh, t, a, l);
  }

  lemma GatewayBlockCount(nh: Xpath, t: NhType, a: RouteArgs, l: Leaf)
    ensures CountAt(GatewayBlock(nh, t, a), Sub(nh, l)) ==
              (if l == ColorLeaf && HasGateway(t) && a.color.Some? then 1 else 0) +
              (if l == PmLeaf && HasGateway(t) then 1 else 0)
  {
    if HasGateway(t) {
      var x := Sub(nh, l);
      var col := if a.color.Some? then [Change(Sub(nh, ColorLeaf), Modify, Some(Text(a.color.value)))] else [];
      var pm := [Change(Sub(nh, PmLeaf), Modify, Some(Text(BoolText(a.pm))))];
      CountAppend(col, pm, x);
      CountSmall(col, x);
      CountSmall(pm, x);
    }
  }

  /** The count over an empty or one-change list. */
  lemma CountSmall(cs: seq<Change>, x: Xpath)
    requires |cs| <= 1
    ensures CountAt(cs, x) == if cs != [] && cs[0].xpath == x then 1 else 0
  {
    if cs != [] {
      assert cs[1..] == [];
    }
  }

  /** The label block sets segment `i` of the label string under stack id `i` modulo 256, after destroying the list. */
  lemma LabelsInOrder(a: RouteArgs, p: Parsed, i: nat)
    requires a.labelStr.Some? && i < |SplitSlash(a.labelStr.value)|
    ensures var mpls := Sub(NexthopXpath(a, p), MplsLeaf);
            var ls := LabelSection(NexthopXpath(a, p), a.labelStr);
            |ls| == 1 + |SplitSlash(a.labelStr.value)| &&
            ls[0] == Change(mpls, Destroy, None) &&
            ls[1 + i] == Change(Sub(mpls, LabelEntry(i % U8Range)), Modify, Some(Text(SplitSlash(a.labelStr.value)[i])))
  {
    LabelChangeAt(Sub(NexthopXpath(a, p), MplsLeaf), SplitSlash(a.labelStr.value), 0, i);
  }

  /** A route with a source prefix queues nothing under the BFD monitoring container. */
  lemma SourceRouteHasNoBfd(nh: Xpath, a: RouteArgs)
    requires a.src.Some?
    ensures BfdChanges(nh, a) + GroupChanges(nh, a) == []
  {
  }

  lemma {:induction false} UnderParent(x: Xpath, b: Xpath, l: Leaf)
    requires Under(x, b)
    ensures Under(Sub(x, l), b)
  {
  }

  /** Every change of the route lies under the path-list xpath that `nb_cli_apply_changes` is given. */
  lemma RouteChangesUnderPrefix(a: RouteArgs, p: Parsed)
    ensures forall i :: 0 <= i < |RouteChanges(a, p)| ==> Under(RouteChanges(a, p)[i].xpath, PrefixXpath(a, p))
  {
    var prefix := PrefixXpath(a, p);
    var nh := NexthopXpath(a, p);
    assert Under(nh, prefix);
    var mpls := Sub(nh, MplsLeaf);
    var head := [Change(prefix, Create, None), Change(Sub(prefix, TagLeaf), Modify, Some(Decimal(Tag(a, p)))), Change(nh, Create, None)];
    var leaves := LeafChanges(nh, NhKeyOf(a).nhType, a);
    var labels := LabelSection(nh, a.labelStr);
    var bfd := BfdChanges(nh, a);
    var group := GroupChanges(nh, a);
    assert AllUnder(head, prefix);
    LeafChangesUnder(nh, NhKeyOf(a).nhType, a, prefix);
    LabelSectionUnder(nh, a.labelStr, prefix);
    assert AllUnder(bfd, prefix);
    assert AllUnder(group, prefix);
    AllUnderAppend(head, leaves, prefix);
    AllUnderAppend(head + leaves, labels, prefix);
    AllUnderAppend(head + leaves + labels, bfd, prefix);
    AllUnderAppend(head + leaves + labels + bfd, group, prefix);
  }

  /** Every change in `cs` addresses `b` or a node below it. */
  predicate AllUnder(cs: seq<Change>, b: Xpath)
  {
    forall i :: 0 <= i < |cs| ==> Under(cs[i].xpath, b)
  }

  lemma AllUnderAppend(c1: seq<Change>, c2: seq<Change>, b: Xpath)
    requires AllUnder(c1, b) && AllUnder(c2, b)
    ensures AllUnder(c1 + c2, b)
  {
    forall i | 0 <= i < |c1 + c2|
      ensures Under((c1 + c2)[i].xpath, b)
    {
      if i >= |c1| {
        assert (c1 + c2)[i] == c2[i - |c1|];
      }
    }
  }

  lemma LeafChangesUnder(nh: Xpath, t: NhType, a: RouteArgs, b: Xpath)
    requires Under(nh, b)
    ensures AllUnder(LeafChanges(nh, t, a), b)
  {
    var bh := BlackholeBlock(nh, t, a);
    var on := OnlinkBlock(nh, t, a);
    var gw := GatewayBlock(nh, t, a);
    assert AllUnder(bh, b);
    assert AllUnder(on, b);
    assert AllUnder(gw, b);
    AllUnderAppend(bh, on, b);
    AllUnderAppend(bh + on, gw, b);
  }

  lemma LabelSectionUnder(nh: Xpath, labelStr: Option<string>, b: Xpath)
    requires Under(nh, b)
    ensures AllUnder(LabelSection(nh, labelStr), b)
  {
    var mpls := Sub(nh, MplsLeaf);
    assert Under(mpls, b);
    if labelStr.Some? {
      var ls := LabelChanges(mpls, SplitSlash(labelStr.value), 0);
      LabelXpaths(mpls, SplitSlash(labelStr.value), 0);
      forall i | 0 <= i < |ls|
        ensures Under(ls[i].xpath, b)
      {
        UnderParent(mpls, b, ls[i].xpath.leaf);
      }
      AllUnderAppend([Change(mpls, Destroy, None)], ls, b);
    }
  }

  // ---- the blackhole round trip through the configuration ----

  /** `enum static_blackhole_type`, numbered like the YANG `blackhole-type` enumeration it is read from. */
  datatype BhKind = BhDrop | BhNull | BhReject

  /** The YANG enumeration names of the blackhole types. */
  function BhKindOf(v: Option<Value>): Option<BhKind>
  {
    match v
    case Some(Text(s)) =>
      if s == UnspecText then Some(BhDrop)
      else if s == NullText then Some(BhNull)
      else if s == RejectText then Some(BhReject)
      else None
    case _ => None
  }

  /** The word `static_config` writes back for a blackhole nexthop. */
  function BlackholeWord(k: BhKind): string
  {
    match k
    case BhDrop => BlackholeText
    case BhNull => Null0Flag
    case BhReject => RejectText
  }

  /** Each blackhole word the commands accept is written back by `static_config` as the same word. */
  lemma BlackholeRoundTrip(flag: string)
    requires flag == RejectText || flag == BlackholeText || flag == Null0Flag
    ensures BhKindOf(BlackholeValue(Some(flag))).Some?
    ensures BlackholeWord(BhKindOf(BlackholeValue(Some(flag))).value) == flag
  {
    assert flag[0] == (if flag == RejectText then 'r' else if flag == BlackholeText then 'b' else 'N');
  }

  /** Omitting the flag also gives the Null0 blackhole. */
  lemma NoFlagIsNull0()
    ensures BhKindOf(BlackholeValue(None)) == Some(BhNull)
  {
  }

  // ---- argument defaulting in the command wrappers ----

  function Lower(c: char): char
  {
    if 'A' <= c <= 'Z' then (c as int + 32) as char else c
  }

  /** `strncasecmp(s, "Null0", 5) == 0`: the first five characters spell Null0 in any case. */
  predicate StartsWithNull0(s: string)
  {
    |s| >= 5 && Lower(s[0]) == 'n' && Lower(s[1]) == 'u' && Lower(s[2]) == 'l' && Lower(s[3]) == 'l' && s[4] == '0'
  }

  /** The wrapper's `(flag, ifname)` after the Null0 substitution. */
  function Null0Substitution(ifname: Option<string>): (r: (Option<string>, Option<string>))
    ensures ifname.Some? && StartsWithNull0(ifname.value) ==> r == (Some(Null0Flag), None)
    ensures !(ifname.Some? && StartsWithNull0(ifname.value)) ==> r == (None, ifname)
  {
    if ifname.Some? && StartsWithNull0(ifname.value) then (Some(Null0Flag), None) else (None, ifname)
  }

  /** The command variables of the `ip route`/`ipv6 route` gateway and interface commands. */
  datatype RouteCli = RouteCli(
    no: bool, prefix: string, mask: Option<string>, from: Option<string>,
    gate: Option<string>, ifname: Option<string>, tag: Option<string>,
    distance: Option<string>, vrf: Option<string>, labelStr: Option<string>,
    table: Option<string>, nexthopVrf: Option<string>, onlink: bool,
    color: Option<string>, bfd: bool, bfdMhop: bool, local: Option<string>,
    automatic: Option<string>, bfdAuto: bool, bfdProfile: Option<string>,
    routeGroup: Option<string>, pm: bool)

  /** The mask the wrappers pass: the IPv4 commands their mask, the IPv6 commands NULL. */
  function MaskFor(afi: Afi, mask: Option<string>): Option<string>
  {
    if afi == AfiIp then mask else None
  }

  /** The source prefix the wrappers pass: the IPv6 commands their `from`, the IPv4 commands NULL. */
  function SrcFor(afi: Afi, from: Option<string>): Option<string>
  {
    if afi == AfiIp6 then from else None
  }

  /**
   * The arguments the `ip route`/`ipv6 route` wrappers pass on: an interface
   * spelled Null0 becomes the Null0 flag, a missing vrf is the default vrf,
   * the nexthop vrf defaults to the route's vrf, the BFD source is the given
   * address or else `auto`. The IPv4 commands pass a mask and no source
   * prefix, the IPv6 commands a source prefix and no mask. `withOnlink`
   * tells the address-interface commands, which pass onlink on, from the
   * plain ones, which pass false.
   */
  function RouteCommand(afi: Afi, c: RouteCli, withOnlink: bool): (r: RouteArgs)
    ensures r.svrf == c.vrf.GetOr(VrfDefaultName)
    ensures r.nhVrf == c.nexthopVrf.GetOr(r.svrf)
    ensures (r.flag, r.ifname) == Null0Substitution(c.ifname)
    ensures r.bfdLocal == (if c.local.Some? then c.local else c.automatic)
    ensures r.onlink == (withOnlink && c.onlink)
    ensures r.negate == c.no && r.gate == c.gate && r.afi == afi && r.safi == SafiUnicast
    ensures afi == AfiIp ==> r.mask == c.mask && r.src.None?
    ensures afi == AfiIp6 ==> r.src == c.from && r.mask.None?
  {
    var (flag, ifname) := Null0Substitution(c.ifname);
    var vrf := c.vrf.GetOr(VrfDefaultName);
    var nhVrf := c.nexthopVrf.GetOr(vrf);
    var srcStr := if c.local.Some? then c.local else c.automatic;
    RouteArgs(vrf, nhVrf, afi, SafiUnicast, c.no, c.prefix, MaskFor(afi, c.mask), SrcFor(afi, c.from), c.gate, ifname, flag,
              c.tag, c.distance, c.labelStr, c.table, withOnlink && c.onlink, c.color, c.bfd, c.bfdMhop,
              c.bfdProfile, c.routeGroup, c.pm, srcStr, c.bfdAuto)
  }

  /**
   * The `..._vrf` variants run inside a vrf node: None (a refused command)
   * when the candidate has no vrf node at the current xpath, else the vrf
   * name read from it stands in for the route and default nexthop vrf.
   */
  function VrfRouteCommand(afi: Afi, c: RouteCli, withOnlink: bool, vrfNode: Option<string>): (r: Option<RouteArgs>)
    ensures r.None? <==> vrfNode.None?
    ensures r.Some? ==> r.value.svrf == vrfNode.value &&
                        r.value.nhVrf == c.nexthopVrf.GetOr(vrfNode.value) &&
                        r.value == RouteCommand(afi, c, withOnlink).(svrf := vrfNode.value, nhVrf := c.nexthopVrf.GetOr(vrfNode.value))
  {
    match vrfNode
    case None => None
    case Some(vrfname) =>
      var base := RouteCommand(afi, c.(vrf := Some(vrfname)), withOnlink);
      Some(base)
  }

  /**
   * `static_route`, used by the blackhole and multicast commands: the vrf
   * defaults to the default vrf and serves as the nexthop vrf; onlink,
   * color and path monitoring are off.
   */
  function StaticRoute(afi: Afi, safi: Safi, negate: bool, dest: string, mask: Option<string>, src: Option<string>,
                       gate: Option<string>, ifname: Option<string>, flag: Option<string>, tag: Option<string>,
                       distance: Option<string>, vrfName: Option<string>, labelStr: Option<string>, table: Option<string>,
                       bfd: bool, bfdMhop: bool, bfdProfile: Option<string>, routeGroup: Option<string>,
                       localAddress: Option<string>, bfdAutohop: bool): (r: RouteArgs)
    ensures r.svrf == vrfName.GetOr(VrfDefaultName) && r.nhVrf == r.svrf
    ensures !r.onlink && r.color.None? && !r.pm
    ensures r.flag == flag && r.gate == gate && r.ifname == ifname && r.negate == negate
  {
    var vrf := vrfName.GetOr(VrfDefaultName);
    RouteArgs(vrf, vrf, afi, safi, negate, dest, mask, src, gate, ifname, flag, tag, distance, labelStr, table,
              false, None, bfd, bfdMhop, bfdProfile, routeGroup, false, localAddress, bfdAutohop)
  }

  /**
   * `ip route P Null0` (any case) without a gateway configures a Null0
   * blackhole: the nexthop type is blackhole and its blackhole-type leaf is
   * set to null.
   */
  lemma Null0InterfaceIsBlackhole(afi: Afi, c: RouteCli, withOnlink: bool, p: Parsed)
    requires c.gate.None? && c.ifname.Some? && StartsWithNull0(c.ifname.value)
    ensures var a := RouteCommand(afi, c, withOnlink);
            NhKeyOf(a).nhType == Blackhole &&
            Change(Sub(NexthopXpath(a, p), BhTypeLeaf), Modify, Some(Text(NullText))) in RouteChanges(a, p)
  {
    var a := RouteCommand(afi, c, withOnlink);
    var nh := NexthopXpath(a, p);
    var prefix := PrefixXpath(a, p);
    var ch := Change(Sub(nh, BhTypeLeaf), Modify, Some(Text(NullText)));
    assert BlackholeValue(a.flag) == Some(Text(NullText));
    assert LeafChanges(nh, Blackhole, a)[0] == ch;
    var head := [Change(prefix, Create, None), Change(Sub(prefix, TagLeaf), Modify, Some(Decimal(Tag(a, p)))), Change(nh, Create, None)];
    assert RouteChanges(a, p)[3] == ch;
  }
}
