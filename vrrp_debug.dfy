/**
 * The VRRP debug flag table of vrrpd/vrrp_debug.c.
 *
 * Seven `struct debug` records, each a flags word plus the command that
 * turns it on, sit in the array `vrrp_debugs`; `vrrp_debugs_conflines`
 * holds the same commands in the same order. `vrrp_debug_set` sets or
 * clears a mode in the selected records, and the config-write helper
 * lists the command of every record whose flags hold the requested mode.
 *
 * The debug-mode macros come from lib/debug.h, which is not part of this
 * model; they are written out as the bit operations FRR defines them as:
 * `DEBUG_MODE_TERM` and `DEBUG_MODE_CONF` are single bits, `DEBUG_MODE_ALL`
 * is both, setting ors the mode in, clearing ands its complement, checking
 * tests for any common bit within `DEBUG_MODE_ALL`, and a vty node maps to
 * both modes inside the configuration node and to the terminal mode
 * anywhere else.
 */
module VrrpDebug {
  const ModeTerm: bv32 := 0x0100_0000
  const ModeConf: bv32 := 0x0200_0000
  const ModeAll: bv32 := 0x0300_0000

  /** `CONFIG_NODE` in the vty node enumeration. */
  const ConfigNode: int := 4

  const ArpCmd: string := "debug vrrp arp"
  const AutoCmd: string := "debug vrrp autoconfigure"
  const NdiscCmd: string := "debug vrrp ndisc"
  const PktCmd: string := "debug vrrp packets"
  const ProtoCmd: string := "debug vrrp protocol"
  const SockCmd: string := "debug vrrp sockets"
  const ZebraCmd: string := "debug vrrp zebra"

  /** `DEBUG_NODE2MODE`. */
  function Node2Mode(vtynode: int): (m: bv32)
    ensures m & ModeTerm == ModeTerm
    ensures (m & ModeConf == ModeConf) <==> vtynode == ConfigNode
  {
    if vtynode == ConfigNode then ModeAll else ModeTerm
  }

  /** `DEBUG_MODE_SET`: or the mode in when `onoff`, otherwise and its complement. */
  function ModeSet(flags: bv32, mode: bv32, onoff: bool): bv32
  {
    if onoff then flags | mode else flags & !mode
  }

  /** `DEBUG_MODE_CHECK`: some bit of the mode, within `DEBUG_MODE_ALL`, is set. */
  predicate ModeCheck(flags: bv32, mode: bv32)
  {
    flags & (mode & ModeAll) != 0
  }

  /** The mode the config-write helper tests. */
  function WriteMode(config: bool): (m: bv32)
    ensures config ==> m == ModeConf
    ensures !config ==> m == ModeAll
  {
    if config then ModeConf else ModeAll
  }

  /** The lines the config-write helper emits: `lines[i]` for every record `i` whose flags pass the check, in order. */
  function Emitted(flags: seq<bv32>, lines: seq<string>, mode: bv32): (r: seq<string>)
    requires |flags| == |lines|
    ensures |r| <= |lines|
  {
    if flags == [] then []
    else (if ModeCheck(flags[0], mode) then [lines[0]] else []) + Emitted(flags[1..], lines[1..], mode)
  }

  /** A line is emitted exactly when some record carrying it passes the check. */
  lemma {:induction false} EmittedMembers(flags: seq<bv32>, lines: seq<string>, mode: bv32, s: string)
    requires |flags| == |lines|
    ensures s in Emitted(flags, lines, mode) <==> exists i :: 0 <= i < |lines| && lines[i] == s && ModeCheck(flags[i], mode)
  {
    if flags != [] {
      EmittedMembers(flags[1..], lines[1..], mode, s);
      if s in Emitted(flags[1..], lines[1..], mode) {
        var i :| 0 <= i < |lines[1..]| && lines[1..][i] == s && ModeCheck(flags[1..][i], mode);
        assert lines[i + 1] == s && ModeCheck(flags[i + 1], mode);
      }
      if exists i :: 0 <= i < |lines| && lines[i] == s && ModeCheck(flags[i], mode) {
        var i :| 0 <= i < |lines| && lines[i] == s && ModeCheck(flags[i], mode);
        if i > 0 {
          assert lines[1..][i - 1] == s && ModeCheck(flags[1..][i - 1], mode);
        }
      }
    }
  }

  /** With every record passing the check, every line is written, in order. */
  lemma {:induction false} EmittedAll(flags: seq<bv32>, lines: seq<string>, mode: bv32)
    requires |flags| == |lines|
    requires forall i :: 0 <= i < |flags| ==> ModeCheck(flags[i], mode)
    ensures Emitted(flags, lines, mode) == lines
  {
    if flags != [] {
      EmittedAll(flags[1..], lines[1..], mode);
    }
  }

  /** When no record passes the check nothing is written, as for the freshly initialised table. */
  lemma {:induction false} EmittedNone(flags: seq<bv32>, lines: seq<string>, mode: bv32)
    requires |flags| == |lines|
    requires forall i :: 0 <= i < |flags| ==> !ModeCheck(flags[i], mode)
    ensures Emitted(flags, lines, mode) == []
  {
    if flags != [] {
      EmittedNone(flags[1..], lines[1..], mode);
    }
  }

  /** Emitting over a prefix extended by one record appends at most that record's line. */
  lemma {:induction false} EmittedSnoc(flags: seq<bv32>, lines: seq<string>, mode: bv32, f: bv32, l: string)
    requires |flags| == |lines|
    ensures Emitted(flags + [f], lines + [l], mode) == Emitted(flags, lines, mode) + (if ModeCheck(f, mode) then [l] else [])
  {
    if flags == [] {
      assert flags + [f] == [f] && lines + [l] == [l];
    } else {
      assert (flags + [f])[1..] == flags[1..] + [f];
      assert (lines + [l])[1..] == lines[1..] + [l];
      EmittedSnoc(flags[1..], lines[1..], mode, f, l);
    }
  }

  lemma TakeSnoc<T>(s: seq<T>, i: nat)
    requires i < |s|
    ensures s[..i + 1] == s[..i] + [s[i]]
  {
  }

  /** Turning a debug on from the configuration node makes both the status and the configuration listings show it. */
  lemma SetFromConfigShows(flags: bv32)
    ensures ModeCheck(ModeSet(flags, Node2Mode(ConfigNode), true), WriteMode(true))
    ensures ModeCheck(ModeSet(flags, Node2Mode(ConfigNode), true), WriteMode(false))
  {
  }

  /** Turning a debug off from the configuration node hides it from both listings. */
  lemma ClearFromConfigHides(flags: bv32)
    ensures !ModeCheck(ModeSet(flags, Node2Mode(ConfigNode), false), WriteMode(true))
    ensures !ModeCheck(ModeSet(flags, Node2Mode(ConfigNode), false), WriteMode(false))
  {
  }

  /** Outside the configuration node only the terminal bit moves, so the configuration listing is unaffected. */
  lemma TerminalSetKeepsConfig(flags: bv32, vtynode: int, onoff: bool)
    requires vtynode != ConfigNode
    ensures ModeCheck(ModeSet(flags, Node2Mode(vtynode), onoff), WriteMode(true)) == ModeCheck(flags, WriteMode(true))
    ensures onoff ==> ModeCheck(ModeSet(flags, Node2Mode(vtynode), onoff), WriteMode(false))
  {
  }

  /** A `struct debug`: its flags word, the command that enables it and a description. */
  class Debug {
    var flags: bv32
    const conf: string
    const desc: string

    constructor(conf: string, desc: string)
      ensures flags == 0 && this.conf == conf && this.desc == desc
    {
      flags := 0;
      this.conf := conf;
      this.desc := desc;
    }
  }

  /** The seven records, the `vrrp_debugs` array over them and `vrrp_debugs_conflines`. */
  class VrrpDebugs {
    const arp: Debug
    const auto: Debug
    const ndisc: Debug
    const pkt: Debug
    const proto: Debug
    const sock: Debug
    const zebra: Debug
    const debugs: seq<Debug>
    const conflines: seq<string>

    ghost predicate Valid()
    {
      debugs == [arp, auto, ndisc, pkt, proto, sock, zebra] &&
      conflines == [ArpCmd, AutoCmd, NdiscCmd, PktCmd, ProtoCmd, SockCmd, ZebraCmd] &&
      arp != auto && arp != ndisc && arp != pkt && arp != proto && arp != sock && arp != zebra &&
      auto != ndisc && auto != pkt && auto != proto && auto != sock && auto != zebra &&
      ndisc != pkt && ndisc != proto && ndisc != sock && ndisc != zebra &&
      pkt != proto && pkt != sock && pkt != zebra &&
      proto != sock && proto != zebra &&
      sock != zebra &&
      (forall i :: 0 <= i < |debugs| ==> debugs[i].conf == conflines[i])
    }

    /** The flags words in array order. */
    function Flags(): (r: seq<bv32>)
      reads debugs
      ensures |r| == |debugs|
      ensures forall i :: 0 <= i < |debugs| ==> r[i] == debugs[i].flags
    {
      seq(|debugs|, i reads debugs requires 0 <= i < |debugs| => debugs[i].flags)
    }

    /** The static initialisers: every record starts with no mode set. */
    constructor()
      ensures Valid()
      ensures forall i :: 0 <= i < |debugs| ==> debugs[i].flags == 0
      ensures fresh(debugs)
    {
      var dArp := new Debug(ArpCmd, "VRRP ARP");
      var dAuto := new Debug(AutoCmd, "VRRP autoconfiguration events");
      var dNdisc := new Debug(NdiscCmd, "VRRP Neighbor Discovery");
      var dPkt := new Debug(PktCmd, "VRRP packets");
      var dProto := new Debug(ProtoCmd, "VRRP protocol events");
      var dSock := new Debug(SockCmd, "VRRP sockets");
      var dZebra := new Debug(ZebraCmd, "VRRP Zebra events");
      arp, auto, ndisc, pkt, proto, sock, zebra := dArp, dAuto, dNdisc, dPkt, dProto, dSock, dZebra;
      debugs := [dArp, dAuto, dNdisc, dPkt, dProto, dSock, dZebra];
      conflines := [ArpCmd, AutoCmd, NdiscCmd, PktCmd, ProtoCmd, SockCmd, ZebraCmd];
    }

    /**
     * `vrrp_debug_set`: each selected record gets the mode of `vtynode`
     * set or cleared according to `onoff`; the others keep their flags.
     * The interface and VRID arguments are not used.
     */
    method Set(vtynode: int, onoff: bool, selProto: bool, selAuto: bool, selPkt: bool, selSock: bool,
               selNdisc: bool, selArp: bool, selZebra: bool)
      requires Valid()
      modifies arp, auto, ndisc, pkt, proto, sock, zebra
      ensures Valid()
      ensures proto.flags == if selProto then ModeSet(old(proto.flags), Node2Mode(vtynode), onoff) else old(proto.flags)
      ensures auto.flags == if selAuto then ModeSet(old(auto.flags), Node2Mode(vtynode), onoff) else old(auto.flags)
      ensures pkt.flags == if selPkt then ModeSet(old(pkt.flags), Node2Mode(vtynode), onoff) else old(pkt.flags)
      ensures sock.flags == if selSock then ModeSet(old(sock.flags), Node2Mode(vtynode), onoff) else old(sock.flags)
      ensures ndisc.flags == if selNdisc then ModeSet(old(ndisc.flags), Node2Mode(vtynode), onoff) else old(ndisc.flags)
      ensures arp.flags == if selArp then ModeSet(old(arp.flags), Node2Mode(vtynode), onoff) else old(arp.flags)
      ensures zebra.flags == if selZebra then ModeSet(old(zebra.flags), Node2Mode(vtynode), onoff) else old(zebra.flags)
    {
      var mode := Node2Mode(vtynode);
      SetIf(proto, selProto, mode, onoff);
      SetIf(auto, selAuto, mode, onoff);
      SetIf(pkt, selPkt, mode, onoff);
      SetIf(sock, selSock, mode, onoff);
      SetIf(ndisc, selNdisc, mode, onoff);
      SetIf(arp, selArp, mode, onoff);
      SetIf(zebra, selZebra, mode, onoff);
    }

    /** One `if (selected) DEBUG_MODE_SET(record, mode, onoff)` line of `vrrp_debug_set`. */
    static method SetIf(d: Debug, selected: bool, mode: bv32, onoff: bool)
      modifies d
      ensures d.flags == if selected then ModeSet(old(d.flags), mode, onoff) else old(d.flags)
    {
      if selected {
        d.flags := ModeSet(d.flags, mode, onoff);
      }
    }

    /** `vrrp_debug_config_write_helper`: the lines it writes, in array order, and its return value 0. */
    method ConfigWriteHelper(config: bool) returns (ret: int, out: seq<string>)
      requires Valid()
      ensures ret == 0
      ensures out == Emitted(Flags(), conflines, WriteMode(config))
    {
      var mode := ModeAll;
      if config {
        mode := ModeConf;
      }
      out := [];
      ghost var fl := Flags();
      for i := 0 to |debugs|
        invariant out == Emitted(fl[..i], conflines[..i], mode)
      {
        EmittedSnoc(fl[..i], conflines[..i], mode, fl[i], conflines[i]);
        TakeSnoc(fl, i);
        TakeSnoc(conflines, i);
        if ModeCheck(debugs[i].flags, mode) {
          out := out + [conflines[i]];
        }
      }
      assert fl[..|debugs|] == fl;
      assert conflines[..|debugs|] == conflines;
      return 0, out;
    }

    /** `vrrp_debug_status_write`: the helper in its non-configuration mode. */
    method StatusWrite() returns (ret: int, out: seq<string>)
      requires Valid()
      ensures ret == 0
      ensures out == Emitted(Flags(), conflines, ModeAll)
    {
      ret, out := ConfigWriteHelper(false);
    }
  }
}
