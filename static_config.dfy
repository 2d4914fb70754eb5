/**
 * `static_config` of staticd/static_vty.c: writing each configured nexthop
 * back as a route command line. The route table walk is flattened into the
 * sequence of (destination, path, nexthop) entries it visits, and the
 * address and label texts arrive already formatted.
 */
module ConfigWrite {
  import opened Optional
  import opened StaticVty

  /** The option keywords of the route commands. */
  datatype Keyword = KwTag | KwLabel | KwNexthopVrf | KwTable | KwOnlink | KwPm | KwColor

  /** A keyword, a free word or a number of a configuration line. */
  datatype Token = Kw(k: Keyword) | Word(w: string) | Num(n: nat)

  /** The path-level fields `static_config` prints. */
  datatype PathInfo = PathInfo(tag: nat, distance: nat, tableId: nat)

  /**
   * The nexthop-level fields it prints. The address and label texts are what
   * `inet_ntop` and `mpls_label2str` produce (None when there are no labels).
   */
  datatype NexthopInfo = NexthopInfo(
    nhType: NhType, addr: string, ifname: string, bh: BhKind, labels: Option<string>,
    nhVrf: string, onlink: bool, pm: bool, color: nat)

  /** The nexthop words by type. */
  function NexthopWords(nh: NexthopInfo): seq<Token>
  {
    match nh.nhType
    case Ipv4Gateway => [Word(nh.addr)]
    case Ipv6Gateway => [Word(nh.addr)]
    case Ifname => [Word(nh.ifname)]
    case Blackhole => [Word(BlackholeWord(nh.bh))]
    case Ipv4GatewayIfname => [Word(nh.addr), Word(nh.ifname)]
    case Ipv6GatewayIfname => [Word(nh.addr), Word(nh.ifname)]
  }

  /** An option keyword and its number, written only when `present`. */
  function OptNum(present: bool, key: Keyword, v: nat): seq<Token>
  {
    if present then [Kw(key), Num(v)] else []
  }

  /** An option keyword and its word, written only when `present`. */
  function OptWord(present: bool, key: Keyword, w: string): seq<Token>
  {
    if present then [Kw(key), Word(w)] else []
  }

  /** A flag keyword, written only when set. */
  function OptFlag(present: bool, key: Keyword): seq<Token>
  {
    if present then [Kw(key)] else []
  }

  /**
   * The option words after the nexthop: each is written only when it differs
   * from what the command would assume without it, and the table only when
   * the vrf itself uses the main table.
   */
  function Suffix(pn: PathInfo, nh: NexthopInfo, vrfName: string, vrfTableMain: bool): seq<Token>
  {
    SuffixFrom(0, pn, nh, vrfName, vrfTableMain)
  }

  /** The options from position `k` of the written order on. */
  function SuffixFrom(k: nat, pn: PathInfo, nh: NexthopInfo, vrfName: string, vrfTableMain: bool): seq<Token>
    decreases 8 - k
  {
    if k >= 8 then [] else Option(k, pn, nh, vrfName, vrfTableMain) + SuffixFrom(k + 1, pn, nh, vrfName, vrfTableMain)
  }

  /** The words of the option at position `k`: tag, distance, label, nexthop vrf, table, onlink, pm, color. */
  function Option(k: nat, pn: PathInfo, nh: NexthopInfo, vrfName: string, vrfTableMain: bool): seq<Token>
  {
    match k
    case 0 => OptNum(pn.tag != 0, KwTag, pn.tag)
    case 1 => if pn.distance != StaticDistanceDefault then [Num(pn.distance)] else []
    case 2 => OptWord(nh.labels.Some?, KwLabel, nh.labels.GetOr(""))
    case 3 => OptWord(nh.nhVrf != vrfName, KwNexthopVrf, nh.nhVrf)
    case 4 => OptNum(pn.tableId != 0 && vrfTableMain, KwTable, pn.tableId)
    case 5 => OptFlag(nh.onlink, KwOnlink)
    case 6 => OptFlag(nh.pm, KwPm)
    case 7 => OptNum(nh.color != 0, KwColor, nh.color)
    case _ => []
  }

  /** The fields a suffix sets, with the command's defaults for the absent ones. */
  datatype SuffixFields = SuffixFields(
    tag: nat, distance: nat, labels: Option<string>, nhVrf: string, tableId: nat,
    onlink: bool, pm: bool, color: nat)

  /** Reads an optional keyword followed by a number. */
  function TakeNum(ts: seq<Token>, key: Keyword, dflt: nat): (nat, seq<Token>)
  {
    if |ts| >= 2 && ts[0] == Kw(key) && ts[1].Num? then (ts[1].n, ts[2..]) else (dflt, ts)
  }

  /** Reads an optional keyword followed by a word. */
  function TakeWord(ts: seq<Token>, key: Keyword): (Option<string>, seq<Token>)
  {
    if |ts| >= 2 && ts[0] == Kw(key) && ts[1].Word? then (Some(ts[1].w), ts[2..]) else (None, ts)
  }

  /** Reads an optional flag keyword. */
  function TakeFlag(ts: seq<Token>, key: Keyword): (bool, seq<Token>)
  {
    if |ts| >= 1 && ts[0] == Kw(key) then (true, ts[1..]) else (false, ts)
  }

  /** Reads the optional bare distance number. */
  function TakeDistance(ts: seq<Token>): (nat, seq<Token>)
  {
    if |ts| >= 1 && ts[0].Num? then (ts[0].n, ts[1..]) else (StaticDistanceDefault, ts)
  }

  /** Reads a suffix back the way the command grammar does, in the order `static_config` writes it; None if tokens remain. */
  function ParseSuffix(ts: seq<Token>, vrfName: string): Option<SuffixFields>
  {
    var (tag, t1) := TakeNum(ts, KwTag, 0);
    var (distance, t2) := TakeDistance(t1);
    var (labels, t3) := TakeWord(t2, KwLabel);
    var (nhVrf, t4) := TakeWord(t3, KwNexthopVrf);
    var (table, t5) := TakeNum(t4, KwTable, 0);
    var (onlink, t6) := TakeFlag(t5, KwOnlink);
    var (pm, t7) := TakeFlag(t6, KwPm);
    var (color, t8) := TakeNum(t7, KwColor, 0);
    if t8 == [] then Some(SuffixFields(tag, distance, labels, nhVrf.GetOr(vrfName), table, onlink, pm, color)) else None
  }

  /** The position of an option in the written order; the bare distance sits at 1, the end of the line at 8. */
  function KwRank(k: Keyword): nat
  {
    match k
    case KwTag => 0
    case KwLabel => 2
    case KwNexthopVrf => 3
    case KwTable => 4
    case KwOnlink => 5
    case KwPm => 6
    case KwColor => 7
  }

  function HeadRank(ts: seq<Token>): nat
  {
    if ts == [] then 8
    else match ts[0]
      case Kw(k) => KwRank(k)
      case Num(_) => 1
      case Word(_) => 0
  }

  /** An optional numbered option reads back whatever comes after it, provided that comes later in the order. */
  lemma TakeNumStep(present: bool, key: Keyword, v: nat, rest: seq<Token>)
    requires key != KwTag ==> KwRank(key) >= 2
    requires HeadRank(rest) > KwRank(key)
    ensures TakeNum(OptNum(present, key, v) + rest, key, 0) == (if present then v else 0, rest)
    ensures HeadRank(OptNum(present, key, v) + rest) >= KwRank(key)
  {
    if present {
      var ts := OptNum(present, key, v) + rest;
      assert ts[0] == Kw(key) && ts[1] == Num(v) && ts[2..] == rest;
    } else {
      assert OptNum(present, key, v) + rest == rest;
    }
  }

  lemma TakeWordStep(present: bool, key: Keyword, w: string, rest: seq<Token>)
    requires HeadRank(rest) > KwRank(key) >= 2
    ensures TakeWord(OptWord(present, key, w) + rest, key) == (if present then Some(w) else None, rest)
    ensures HeadRank(OptWord(present, key, w) + rest) >= KwRank(key)
  {
    if present {
      var ts := OptWord(present, key, w) + rest;
      assert ts[0] == Kw(key) && ts[1] == Word(w) && ts[2..] == rest;
    } else {
      assert OptWord(present, key, w) + rest == rest;
    }
  }

  lemma TakeFlagStep(present: bool, key: Keyword, rest: seq<Token>)
    requires HeadRank(rest) > KwRank(key) >= 2
    ensures TakeFlag(OptFlag(present, key) + rest, key) == (present, rest)
    ensures HeadRank(OptFlag(present, key) + rest) >= KwRank(key)
  {
    if present {
      var ts := OptFlag(present, key) + rest;
      assert ts[0] == Kw(key) && ts[1..] == rest;
    } else {
      assert OptFlag(present, key) + rest == rest;
    }
  }

  lemma TakeDistanceStep(d: nat, rest: seq<Token>)
    requires HeadRank(rest) >= 2
    ensures var ts := (if d != StaticDistanceDefault then [Num(d)] else []) + rest;
            TakeDistance(ts) == (d, rest) && HeadRank(ts) >= 1
  {
    if d != StaticDistanceDefault {
      var ts := [Num(d)] + rest;
      assert ts[0] == Num(d) && ts[1..] == rest;
    } else {
      assert [] + rest == rest;
    }
  }

  /**
   * The written suffix reads back as the nexthop's own settings, except that
   * the table id is lost when the vrf does not use the main table.
   */
  lemma SuffixRoundTrip(pn: PathInfo, nh: NexthopInfo, vrfName: string, vrfTableMain: bool)
    ensures ParseSuffix(Suffix(pn, nh, vrfName, vrfTableMain), vrfName) ==
            Some(SuffixFields(pn.tag, pn.distance, nh.labels, nh.nhVrf,
                              if vrfTableMain then pn.tableId else 0, nh.onlink, nh.pm, nh.color))
  {
    ReadLate(pn, nh, vrfName, vrfTableMain);
    ReadEarly(pn, nh, vrfName, vrfTableMain);
    ParseChain(SuffixFrom(0, pn, nh, vrfName, vrfTableMain), SuffixFrom(1, pn, nh, vrfName, vrfTableMain),
      SuffixFrom(2, pn, nh, vrfName, vrfTableMain), SuffixFrom(3, pn, nh, vrfName, vrfTableMain),
      SuffixFrom(4, pn, nh, vrfName, vrfTableMain), SuffixFrom(5, pn, nh, vrfName, vrfTableMain),
      SuffixFrom(6, pn, nh, vrfName, vrfTableMain), SuffixFrom(7, pn, nh, vrfName, vrfTableMain), vrfName,
      SuffixFields(pn.tag, pn.distance, nh.labels, nh.nhVrf,
                   if vrfTableMain then pn.tableId else 0, nh.onlink, nh.pm, nh.color),
      if nh.nhVrf != vrfName then Some(nh.nhVrf) else None);
  }

  /** The table, onlink, pm and color options read back. */
  lemma ReadLate(pn: PathInfo, nh: NexthopInfo, vrfName: string, vrfTableMain: bool)
    ensures TakeNum(SuffixFrom(4, pn, nh, vrfName, vrfTableMain), KwTable, 0) ==
              (if vrfTableMain then pn.tableId else 0, SuffixFrom(5, pn, nh, vrfName, vrfTableMain))
    ensures TakeFlag(SuffixFrom(5, pn, nh, vrfName, vrfTableMain), KwOnlink) == (nh.onlink, SuffixFrom(6, pn, nh, vrfName, vrfTableMain))
    ensures TakeFlag(SuffixFrom(6, pn, nh, vrfName, vrfTableMain), KwPm) == (nh.pm, SuffixFrom(7, pn, nh, vrfName, vrfTableMain))
    ensures TakeNum(SuffixFrom(7, pn, nh, vrfName, vrfTableMain), KwColor, 0) == (nh.color, [])
    ensures HeadRank(SuffixFrom(4, pn, nh, vrfName, vrfTableMain)) >= 4
  {
    var r9 := SuffixFrom(8, pn, nh, vrfName, vrfTableMain);
    assert OptNum(nh.color != 0, KwColor, nh.color) + r9 == SuffixFrom(7, pn, nh, vrfName, vrfTableMain);
    TakeNumStep(nh.color != 0, KwColor, nh.color, r9);
    TakeFlagStep(nh.pm, KwPm, SuffixFrom(7, pn, nh, vrfName, vrfTableMain));
    TakeFlagStep(nh.onlink, KwOnlink, SuffixFrom(6, pn, nh, vrfName, vrfTableMain));
    TakeNumStep(pn.tableId != 0 && vrfTableMain, KwTable, pn.tableId, SuffixFrom(5, pn, nh, vrfName, vrfTableMain));
  }

  /** The tag, distance, label and nexthop-vrf options read back, given that the rest starts at the table option or later. */
  lemma ReadEarly(pn: PathInfo, nh: NexthopInfo, vrfName: string, vrfTableMain: bool)
    requires HeadRank(SuffixFrom(4, pn, nh, vrfName, vrfTableMain)) >= 4
    ensures TakeNum(SuffixFrom(0, pn, nh, vrfName, vrfTableMain), KwTag, 0) == (pn.tag, SuffixFrom(1, pn, nh, vrfName, vrfTableMain))
    ensures TakeDistance(SuffixFrom(1, pn, nh, vrfName, vrfTableMain)) == (pn.distance, SuffixFrom(2, pn, nh, vrfName, vrfTableMain))
    ensures TakeWord(SuffixFrom(2, pn, nh, vrfName, vrfTableMain), KwLabel) == (nh.labels, SuffixFrom(3, pn, nh, vrfName, vrfTableMain))
    ensures TakeWord(SuffixFrom(3, pn, nh, vrfName, vrfTableMain), KwNexthopVrf) ==
              (if nh.nhVrf != vrfName then Some(nh.nhVrf) else None, SuffixFrom(4, pn, nh, vrfName, vrfTableMain))
  {
    TakeWordStep(nh.nhVrf != vrfName, KwNexthopVrf, nh.nhVrf, SuffixFrom(4, pn, nh, vrfName, vrfTableMain));
    TakeWordStep(nh.labels.Some?, KwLabel, nh.labels.GetOr(""), SuffixFrom(3, pn, nh, vrfName, vrfTableMain));
    TakeDistanceStep(pn.distance, SuffixFrom(2, pn, nh, vrfName, vrfTableMain));
    TakeNumStep(pn.tag != 0, KwTag, pn.tag, SuffixFrom(1, pn, nh, vrfName, vrfTableMain));
  }

  /** Glues the eight reading steps of `ParseSuffix` together. */
  lemma ParseChain(r1: seq<Token>, r2: seq<Token>, r3: seq<Token>, r4: seq<Token>, r5: seq<Token>,
                   r6: seq<Token>, r7: seq<Token>, r8: seq<Token>, vrfName: string, f: SuffixFields, vrf: Option<string>)
    requires TakeNum(r1, KwTag, 0) == (f.tag, r2)
    requires TakeDistance(r2) == (f.distance, r3)
    requires TakeWord(r3, KwLabel) == (f.labels, r4)
    requires TakeWord(r4, KwNexthopVrf) == (vrf, r5) && vrf.GetOr(vrfName) == f.nhVrf
    requires TakeNum(r5, KwTable, 0) == (f.tableId, r6)
    requires TakeFlag(r6, KwOnlink) == (f.onlink, r7)
    requires TakeFlag(r7, KwPm) == (f.pm, r8)
    requires TakeNum(r8, KwColor, 0) == (f.color, [])
    ensures ParseSuffix(r1, vrfName) == Some(f)
  {
  }

  /** The route-table entries `static_config` visits, flattened to one (route, path, nexthop) triple per nexthop. */
  datatype ConfigEntry = ConfigEntry(dest: string, path: PathInfo, nh: NexthopInfo)

  /** One written line: the spacing, the destination and then the words. */
  datatype ConfigLine = ConfigLine(spacing: string, dest: string, words: seq<Token>)

  /** The command prefix: the command, preceded by a space inside a non-default vrf. */
  function Spacing(vrfIsDefault: bool, cmd: string): string
  {
    (if vrfIsDefault then "" else " ") + cmd
  }

  function LineOf(e: ConfigEntry, spacing: string, vrfName: string, vrfTableMain: bool): ConfigLine
  {
    ConfigLine(spacing, e.dest, NexthopWords(e.nh) + Suffix(e.path, e.nh, vrfName, vrfTableMain))
  }

  /**
   * `static_config`: no table writes nothing and returns 0; otherwise one line
   * per nexthop, in table order, and 1 exactly when some line was written.
   */
  method StaticConfig(stable: Option<seq<ConfigEntry>>, vrfIsDefault: bool, cmd: string, vrfName: string, vrfTableMain: bool)
    returns (write: int, lines: seq<ConfigLine>)
    ensures stable.None? ==> write == 0 && lines == []
    ensures stable.Some? ==>
              (|lines| == |stable.value| &&
               forall k :: 0 <= k < |lines| ==> lines[k] == LineOf(stable.value[k], Spacing(vrfIsDefault, cmd), vrfName, vrfTableMain))
    ensures write == (if |lines| > 0 then 1 else 0)
  {
    write := 0;
    lines := [];
    if stable.None? {
      return;
    }
    var entries := stable.value;
    var spacing := Spacing(vrfIsDefault, cmd);
    for i := 0 to |entries|
      invariant |lines| == i
      invariant forall k :: 0 <= k < i ==> lines[k] == LineOf(entries[k], spacing, vrfName, vrfTableMain)
      invariant write == (if i > 0 then 1 else 0)
    {
      lines := lines + [LineOf(entries[i], spacing, vrfName, vrfTableMain)];
      write := 1;
    }
  }
}
