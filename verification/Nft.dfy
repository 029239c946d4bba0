/** The packet-filter script of `nft_script`, and what nftables does when it runs one. */
module Nft {
  import opened Basics
  import opened Prefix

  const NFT_TABLE := "wirefinder"
  const NFT_PRIORITY_RAW := -300
  const NFT_PRIORITY_MANGLE := -150

  // --- the ruleset -------------------------------------------------------------

  datatype TableId = TableId(family: Family, name: string)

  datatype Hook = Prerouting | Postrouting

  datatype Rule =
    | AntiSpoof(ifname: string, daddr: IpAddr)  // iifname != ifname, daddr, fib saddr type != local: drop
    | RestoreMark                               // meta l4proto udp meta mark set ct mark
    | SaveMark(mark: nat)                       // meta l4proto udp mark M ct mark set mark

  datatype Chain = Chain(hook: Hook, priority: int, rules: seq<Rule>)

  type Table = map<string, Chain>

  type Ruleset = map<TableId, Table>

  predicate Ours(id: TableId) {
    id.name == NFT_TABLE
  }

  // --- scripts -----------------------------------------------------------------

  datatype Line =
    | AddTable(id: TableId)
    | DeleteTable(id: TableId)
    | OpenTable(id: TableId)
    | OpenChain(name: string, hook: Hook, priority: int)
    | RuleLine(rule: Rule)
    | CloseChain
    | CloseTable

  type Script = seq<Line>

  /** The interpreter's position: inside which table, and which chain of it. */
  datatype Machine = Rejected | At(rules: Ruleset, table: Option<TableId>, chain: Option<string>)

  function StepLine(m: Machine, line: Line): Machine {
    if m.Rejected? then Rejected
    else
      match line
      case AddTable(id) =>
        if m.table.Some? then Rejected
        else m.(rules := if id in m.rules then m.rules else m.rules[id := map[]])
      case DeleteTable(id) =>
        if m.table.Some? || id !in m.rules then Rejected
        else m.(rules := m.rules - {id})
      case OpenTable(id) =>
        if m.table.Some? then Rejected
        else m.(rules := if id in m.rules then m.rules else m.rules[id := map[]], table := Some(id))
      case OpenChain(name, hook, priority) =>
        if m.table.None? || m.chain.Some? || m.table.value !in m.rules then Rejected
        else
          var t := m.rules[m.table.value];
          if name in t && (t[name].hook != hook || t[name].priority != priority) then Rejected
          else if name in t then m.(chain := Some(name))
          else m.(rules := m.rules[m.table.value := t[name := Chain(hook, priority, [])]], chain := Some(name))
      case RuleLine(rule) =>
        if m.table.None? || m.chain.None? || m.table.value !in m.rules || m.chain.value !in m.rules[m.table.value]
        then Rejected
        else
          var t := m.rules[m.table.value];
          var c := t[m.chain.value];
          m.(rules := m.rules[m.table.value := t[m.chain.value := c.(rules := c.rules + [rule])]])
      case CloseChain => if m.chain.None? then Rejected else m.(chain := None)
      case CloseTable => if m.table.None? || m.chain.Some? then Rejected else m.(table := None)
  }

  function RunLines(m: Machine, script: Script): Machine
    decreases script
  {
    if script == [] then m else RunLines(StepLine(m, script[0]), script[1..])
  }

  lemma {:induction false} RunLinesAppend(m: Machine, a: Script, b: Script)
    ensures RunLines(m, a + b) == RunLines(RunLines(m, a), b)
    decreases a
  {
    if a == [] {
      assert a + b == b;
    } else {
      assert (a + b)[1..] == a[1..] + b;
      RunLinesAppend(StepLine(m, a[0]), a[1..], b);
    }
  }

  /** `nft -f -`: the whole script or nothing. A script that stops inside a block is rejected. */
  function Exec(script: Script, rules: Ruleset): Option<Ruleset> {
    match RunLines(At(rules, None, None), script)
    case Rejected => None
    case At(r, t, c) => if t.None? && c.None? then Some(r) else None
  }

  // --- the generator -----------------------------------------------------------

  function OfFamily(addresses: seq<IpAddrMask>, family: Family): (r: seq<IpAddrMask>)
    ensures forall a :: a in r <==> a in addresses && a.address.family == family
    ensures r != [] <==> exists a :: a in addresses && a.address.family == family
  {
    var inFamily := (a: IpAddrMask) => a.address.family == family;
    var r := Keep(addresses, inFamily);
    KeepElements(addresses, inFamily);
    assert r != [] ==> r[0] in r;
    r
  }

  function GuardRules(ifname: string, addrs: seq<IpAddrMask>): seq<Rule> {
    Map(addrs, (a: IpAddrMask) => AntiSpoof(ifname, a.address))
  }

  function RuleLines(rules: seq<Rule>): Script {
    Map(rules, r => RuleLine(r))
  }

  predicate UsableMark(fwmark: Option<nat>) {
    fwmark.Some? && fwmark.value != 0
  }

  function MarkLines(fwmark: Option<nat>): Script {
    if !UsableMark(fwmark) then []
    else [OpenChain("premangle", Prerouting, NFT_PRIORITY_MANGLE), RuleLine(RestoreMark), CloseChain,
          OpenChain("postmangle", Postrouting, NFT_PRIORITY_MANGLE), RuleLine(SaveMark(fwmark.value)), CloseChain]
  }

  function FamilyScript(ifname: string, family: Family, addresses: seq<IpAddrMask>, fwmark: Option<nat>): Script {
    var id := TableId(family, NFT_TABLE);
    var addrs := OfFamily(addresses, family);
    [AddTable(id), DeleteTable(id)] +
    if addrs == [] then [] else TableScript(ifname, id, addrs, fwmark)
  }

  function TableScript(ifname: string, id: TableId, addrs: seq<IpAddrMask>, fwmark: Option<nat>): Script {
    [OpenTable(id), OpenChain("preraw", Prerouting, NFT_PRIORITY_RAW)] +
    RuleLines(GuardRules(ifname, addrs)) + [CloseChain] + MarkLines(fwmark) + [CloseTable]
  }

  function NftScript(ifname: string, addresses: seq<IpAddrMask>, fwmark: Option<nat>): Script {
    FamilyScript(ifname, V4, addresses, fwmark) + FamilyScript(ifname, V6, addresses, fwmark)
  }

  /** The generator as the source runs it: one growing script, a loop over families, a loop over addresses. */
  method BuildNftScript(ifname: string, addresses: seq<IpAddrMask>, fwmark: Option<nat>) returns (script: Script)
    ensures script == NftScript(ifname, addresses, fwmark)
  {
    script := [];
    var families := [V4, V6];
    for f := 0 to 2
      invariant script == if f == 0 then []
                          else if f == 1 then [] + FamilyScript(ifname, V4, addresses, fwmark)
                          else [] + FamilyScript(ifname, V4, addresses, fwmark)
                               + FamilyScript(ifname, V6, addresses, fwmark)
    {
      script := PushFamily(script, ifname, families[f], addresses, fwmark);
    }
    assert [] + FamilyScript(ifname, V4, addresses, fwmark) == FamilyScript(ifname, V4, addresses, fwmark);
  }

  /** One family's part: `add`, `delete`, and the declaration when the family has an address. */
  method PushFamily(script: Script, ifname: string, family: Family, addresses: seq<IpAddrMask>, fwmark: Option<nat>)
    returns (r: Script)
    ensures r == script + FamilyScript(ifname, family, addresses, fwmark)
  {
    var id := TableId(family, NFT_TABLE);
    r := script + [AddTable(id), DeleteTable(id)];
    var addrs := OfFamily(addresses, family);
    if addrs == [] {
      assert [AddTable(id), DeleteTable(id)] + [] == [AddTable(id), DeleteTable(id)];
      return;
    }
    var table := BuildTable(ifname, id, addrs, fwmark);
    r := r + table;
  }

  /** The declaration of one family's table: the guard chain, then the mark chains. */
  method BuildTable(ifname: string, id: TableId, addrs: seq<IpAddrMask>, fwmark: Option<nat>) returns (part: Script)
    ensures part == TableScript(ifname, id, addrs, fwmark)
  {
    part := [OpenTable(id), OpenChain("preraw", Prerouting, NFT_PRIORITY_RAW)];
    ghost var head := part;
    ghost var guards := RuleLines(GuardRules(ifname, addrs));
    for i := 0 to |addrs|
      invariant part == head + guards[..i]
    {
      part := part + [RuleLine(AntiSpoof(ifname, addrs[i].address))];
      assert guards[..i + 1] == guards[..i] + [guards[i]];
    }
    assert guards[..|addrs|] == guards;
    part := part + [CloseChain];
    if fwmark.Some? && fwmark.value != 0 {
      part := part + [OpenChain("premangle", Prerouting, NFT_PRIORITY_MANGLE), RuleLine(RestoreMark), CloseChain,
                      OpenChain("postmangle", Postrouting, NFT_PRIORITY_MANGLE), RuleLine(SaveMark(fwmark.value)),
                      CloseChain];
    }
    part := part + [CloseTable];
  }

  // --- what running a script does ----------------------------------------------

  /** The table a script leaves for a family that has addresses. */
  function GuardTable(ifname: string, addrs: seq<IpAddrMask>, fwmark: Option<nat>): Table {
    var guard: Table := map["preraw" := Chain(Prerouting, NFT_PRIORITY_RAW, GuardRules(ifname, addrs))];
    if !UsableMark(fwmark) then guard
    else guard["premangle" := Chain(Prerouting, NFT_PRIORITY_MANGLE, [RestoreMark])]
              ["postmangle" := Chain(Postrouting, NFT_PRIORITY_MANGLE, [SaveMark(fwmark.value)])]
  }

  function WithFamily(rules: Ruleset, ifname: string, family: Family, addresses: seq<IpAddrMask>,
                      fwmark: Option<nat>): Ruleset {
    var id := TableId(family, NFT_TABLE);
    var addrs := OfFamily(addresses, family);
    if addrs == [] then rules - {id} else rules[id := GuardTable(ifname, addrs, fwmark)]
  }

  function Installed(rules: Ruleset, ifname: string, addresses: seq<IpAddrMask>, fwmark: Option<nat>): Ruleset {
    WithFamily(WithFamily(rules, ifname, V4, addresses, fwmark), ifname, V6, addresses, fwmark)
  }

  lemma {:induction false} RuleLinesAppend(m: Machine, added: seq<Rule>)
    requires m.At? && m.table.Some? && m.chain.Some?
    requires m.table.value in m.rules && m.chain.value in m.rules[m.table.value]
    ensures var t := m.rules[m.table.value];
            var c := t[m.chain.value];
            RunLines(m, RuleLines(added)) ==
            m.(rules := m.rules[m.table.value := t[m.chain.value := c.(rules := c.rules + added)]])
    decreases added
  {
    var t := m.rules[m.table.value];
    var c := t[m.chain.value];
    if added == [] {
      assert c.rules + added == c.rules;
      assert t == t[m.chain.value := c];
      assert m.rules == m.rules[m.table.value := t];
    } else {
      var next := StepLine(m, RuleLine(added[0]));
      assert RuleLines(added)[1..] == RuleLines(added[1..]);
      RuleLinesAppend(next, added[1..]);
      assert (c.rules + [added[0]]) + added[1..] == c.rules + added;
      var t' := next.rules[m.table.value];
      var c' := c.(rules := c.rules + added);
      assert t'[m.chain.value := c'] == t[m.chain.value := c'];
      assert next.rules[m.table.value := t[m.chain.value := c']] == m.rules[m.table.value := t[m.chain.value := c']];
    }
  }

  /** `add` then `delete`: the table is gone, whether it was there or not. */
  lemma RunClear(rules: Ruleset, id: TableId)
    ensures RunLines(At(rules, None, None), [AddTable(id), DeleteTable(id)]) == At(rules - {id}, None, None)
  {
    var start := At(rules, None, None);
    var added := StepLine(start, AddTable(id));
    var head := [AddTable(id), DeleteTable(id)];
    assert added.rules - {id} == rules - {id};
    assert head[1..] == [DeleteTable(id)];
    assert RunLines(start, head) == RunLines(added, [DeleteTable(id)])
           == RunLines(StepLine(added, DeleteTable(id)), []);
  }

  lemma RunGuard(rules: Ruleset, id: TableId, guards: seq<Rule>)
    requires id !in rules
    ensures RunLines(At(rules, None, None),
                     [OpenTable(id), OpenChain("preraw", Prerouting, NFT_PRIORITY_RAW)] + RuleLines(guards)) ==
            At(rules[id := map["preraw" := Chain(Prerouting, NFT_PRIORITY_RAW, guards)]], Some(id), Some("preraw"))
  {
    var open := [OpenTable(id), OpenChain("preraw", Prerouting, NFT_PRIORITY_RAW)];
    var start := At(rules, None, None);
    var t0 := StepLine(start, open[0]);
    var t1 := StepLine(t0, open[1]);
    assert open[1..] == [open[1]];
    assert RunLines(start, open) == RunLines(t0, open[1..]) == RunLines(t1, []) == t1;
    var empty: Table := map["preraw" := Chain(Prerouting, NFT_PRIORITY_RAW, [])];
    assert t1.rules[id] == empty;
    RunLinesAppend(start, open, RuleLines(guards));
    RuleLinesAppend(t1, guards);
    assert [] + guards == guards;
    var full: Table := map["preraw" := Chain(Prerouting, NFT_PRIORITY_RAW, guards)];
    assert empty["preraw" := Chain(Prerouting, NFT_PRIORITY_RAW, guards)] == full;
    assert t1.rules[id := full] == rules[id := full];
  }

  /** Declaring a family's table where there is none. */
  lemma RunTable(rules: Ruleset, id: TableId, ifname: string, addrs: seq<IpAddrMask>, fwmark: Option<nat>)
    requires id !in rules
    ensures RunLines(At(rules, None, None), TableScript(ifname, id, addrs, fwmark)) ==
            At(rules[id := GuardTable(ifname, addrs, fwmark)], None, None)
  {
    var front := [OpenTable(id), OpenChain("preraw", Prerouting, NFT_PRIORITY_RAW)]
      + RuleLines(GuardRules(ifname, addrs));
    var tail := [CloseChain] + MarkLines(fwmark) + [CloseTable];
    RunGuard(rules, id, GuardRules(ifname, addrs));
    RunTail(rules, id, ifname, addrs, fwmark);
    RunLinesAppend(At(rules, None, None), front, tail);
    assert TableScript(ifname, id, addrs, fwmark) == front + tail;
  }

  lemma RunFamilyScript(rules: Ruleset, ifname: string, family: Family, addresses: seq<IpAddrMask>, fwmark: Option<nat>)
    ensures RunLines(At(rules, None, None), FamilyScript(ifname, family, addresses, fwmark)) ==
            At(WithFamily(rules, ifname, family, addresses, fwmark), None, None)
  {
    var id := TableId(family, NFT_TABLE);
    var addrs := OfFamily(addresses, family);
    var head := [AddTable(id), DeleteTable(id)];
    RunClear(rules, id);
    if addrs == [] {
      assert head + [] == head;
    } else {
      RunTable(rules - {id}, id, ifname, addrs, fwmark);
      RunLinesAppend(At(rules, None, None), head, TableScript(ifname, id, addrs, fwmark));
      var t := GuardTable(ifname, addrs, fwmark);
      assert (rules - {id})[id := t] == rules[id := t];
    }
  }

  /** The two mark chains, then the end of the table. */
  lemma RunMarks(rules: Ruleset, id: TableId, t: Table, mark: nat)
    requires "premangle" !in t && "postmangle" !in t && mark != 0
    ensures RunLines(At(rules[id := t], Some(id), None), MarkLines(Some(mark)) + [CloseTable]) ==
            At(rules[id := t["premangle" := Chain(Prerouting, NFT_PRIORITY_MANGLE, [RestoreMark])]
                            ["postmangle" := Chain(Postrouting, NFT_PRIORITY_MANGLE, [SaveMark(mark)])]], None, None)
  {
    var s := MarkLines(Some(mark)) + [CloseTable];
    var pre := t["premangle" := Chain(Prerouting, NFT_PRIORITY_MANGLE, [RestoreMark])];
    var m1 := RunMarkChain(rules, id, t, "premangle", Prerouting, RestoreMark, s);
    var post := [OpenChain("postmangle", Postrouting, NFT_PRIORITY_MANGLE), RuleLine(SaveMark(mark)), CloseChain,
                 CloseTable];
    assert s[3..] == post;
    var m2 := RunMarkChain(rules, id, pre, "postmangle", Postrouting, SaveMark(mark), post);
    assert post[3..] == [CloseTable];
    assert RunLines(m2, [CloseTable]) == RunLines(StepLine(m2, CloseTable), []);
  }

  /** Closing the guard chain, the mark chains when there is a usable mark, and the table. */
  lemma RunTail(rules: Ruleset, id: TableId, ifname: string, addrs: seq<IpAddrMask>, fwmark: Option<nat>)
    ensures RunLines(At(rules[id := GuardTable(ifname, addrs, None)], Some(id), Some("preraw")),
                     [CloseChain] + MarkLines(fwmark) + [CloseTable]) ==
            At(rules[id := GuardTable(ifname, addrs, fwmark)], None, None)
  {
    hide GuardRules;
    var guarded := GuardTable(ifname, addrs, None);
    var m0 := At(rules[id := guarded], Some(id), None);
    var s := [CloseChain] + MarkLines(fwmark) + [CloseTable];
    assert s[1..] == MarkLines(fwmark) + [CloseTable];
    assert RunLines(At(rules[id := guarded], Some(id), Some("preraw")), s) == RunLines(m0, s[1..]);
    if UsableMark(fwmark) {
      RunMarks(rules, id, guarded, fwmark.value);
    } else {
      assert s[1..] == [CloseTable];
      assert RunLines(m0, [CloseTable]) == RunLines(StepLine(m0, CloseTable), []);
    }
  }

  lemma RunMarkChain(rules: Ruleset, id: TableId, t: Table, name: string, hook: Hook, rule: Rule,
                     s: Script) returns (m: Machine)
    requires name !in t
    requires |s| >= 3 && s[..3] == [OpenChain(name, hook, NFT_PRIORITY_MANGLE), RuleLine(rule), CloseChain]
    ensures m == At(rules[id := t[name := Chain(hook, NFT_PRIORITY_MANGLE, [rule])]], Some(id), None)
    ensures RunLines(At(rules[id := t], Some(id), None), s) == RunLines(m, s[3..])
  {
    m := At(rules[id := t[name := Chain(hook, NFT_PRIORITY_MANGLE, [rule])]], Some(id), None);
    var m0 := At(rules[id := t], Some(id), None);
    var m1 := StepLine(m0, s[..3][0]);
    var m2 := StepLine(m1, s[..3][1]);
    var m3 := StepLine(m2, s[..3][2]);
    assert [] + [rule] == [rule];
    assert m1.rules[id] == t[name := Chain(hook, NFT_PRIORITY_MANGLE, [])];
    assert m2.rules[id] == t[name := Chain(hook, NFT_PRIORITY_MANGLE, [rule])];
    assert m3.rules == m.rules;
    assert s[1..][1..] == s[2..] && s[2..][1..] == s[3..];
    assert RunLines(m0, s) == RunLines(m1, s[1..]) == RunLines(m2, s[2..]) == RunLines(m3, s[3..]);
  }

  /** What `Installed` holds for one of our two tables. */
  lemma OurTable(rules: Ruleset, ifname: string, addresses: seq<IpAddrMask>, fwmark: Option<nat>, family: Family)
    ensures var id := TableId(family, NFT_TABLE);
            var after := Installed(rules, ifname, addresses, fwmark);
            var addrs := OfFamily(addresses, family);
            (id in after <==> addrs != []) && (addrs != [] ==> after[id] == GuardTable(ifname, addrs, fwmark))
  {
    match family
    case V4 =>
    case V6 =>
  }

  /** The script runs on any prior ruleset, and its effect is `Installed`. */
  lemma ScriptInstalls(rules: Ruleset, ifname: string, addresses: seq<IpAddrMask>, fwmark: Option<nat>)
    ensures Exec(NftScript(ifname, addresses, fwmark), rules) == Some(Installed(rules, ifname, addresses, fwmark))
  {
    var a := FamilyScript(ifname, V4, addresses, fwmark);
    var b := FamilyScript(ifname, V6, addresses, fwmark);
    RunFamilyScript(rules, ifname, V4, addresses, fwmark);
    RunFamilyScript(WithFamily(rules, ifname, V4, addresses, fwmark), ifname, V6, addresses, fwmark);
    RunLinesAppend(At(rules, None, None), a, b);
  }

  /** Tables of other programs are untouched; ours exists for exactly the families with an address. */
  lemma ScriptFrame(rules: Ruleset, ifname: string, addresses: seq<IpAddrMask>, fwmark: Option<nat>, id: TableId)
    ensures var after := Exec(NftScript(ifname, addresses, fwmark), rules);
            && after.Some?
            && (!Ours(id) ==> (id in after.value <==> id in rules) && (id in rules ==> after.value[id] == rules[id]))
            && (Ours(id) ==> (id in after.value <==> exists a :: a in addresses && a.address.family == id.family))
  {
    ScriptInstalls(rules, ifname, addresses, fwmark);
    OurTable(rules, ifname, addresses, fwmark, id.family);
    assert !Ours(id) ==> id != TableId(V4, NFT_TABLE) && id != TableId(V6, NFT_TABLE);
  }

  /** After a script, the previous contents of our tables no longer matter: the last script decides. */
  lemma ScriptReplaces(r1: Ruleset, r2: Ruleset, ifname: string, addresses: seq<IpAddrMask>, fwmark: Option<nat>)
    requires forall id :: !Ours(id) ==> (id in r1 <==> id in r2)
    requires forall id :: !Ours(id) && id in r1 ==> r1[id] == r2[id]
    ensures Exec(NftScript(ifname, addresses, fwmark), r1) == Exec(NftScript(ifname, addresses, fwmark), r2)
  {
    hide NftScript, OfFamily, GuardTable;
    ScriptInstalls(r1, ifname, addresses, fwmark);
    ScriptInstalls(r2, ifname, addresses, fwmark);
    var i1 := Installed(r1, ifname, addresses, fwmark);
    var i2 := Installed(r2, ifname, addresses, fwmark);
    forall id: TableId ensures (id in i1 <==> id in i2) && (id in i1 ==> i1[id] == i2[id]) {
      if Ours(id) {
        assert id == TableId(id.family, NFT_TABLE);
        match id.family
        case V4 =>
        case V6 =>
      }
    }
    assert i1 == i2;
  }

  datatype Arguments = Arguments(addresses: seq<IpAddrMask>, fwmark: Option<nat>)

  /** Running one script after another. */
  function ExecAll(ifname: string, args: seq<Arguments>, rules: Ruleset): Option<Ruleset> {
    if args == [] then Some(rules)
    else
      match Exec(NftScript(ifname, args[0].addresses, args[0].fwmark), rules)
      case None => None
      case Some(r) => ExecAll(ifname, args[1..], r)
  }

  /** Any sequence of scripts ends in the ruleset of its last one alone; one script twice is that script once. */
  lemma {:induction false} LastScriptWins(ifname: string, args: seq<Arguments>, rules: Ruleset)
    requires args != []
    ensures var last := args[|args| - 1];
            ExecAll(ifname, args, rules) == Exec(NftScript(ifname, last.addresses, last.fwmark), rules)
    decreases args
  {
    ScriptInstalls(rules, ifname, args[0].addresses, args[0].fwmark);
    var first := Installed(rules, ifname, args[0].addresses, args[0].fwmark);
    if |args| > 1 {
      LastScriptWins(ifname, args[1..], first);
      TwoScripts(ifname, args[0], args[|args| - 1], rules);
    }
  }

  lemma TwoScripts(ifname: string, a: Arguments, b: Arguments, rules: Ruleset)
    ensures var first := Exec(NftScript(ifname, a.addresses, a.fwmark), rules);
            first.Some? &&
            Exec(NftScript(ifname, b.addresses, b.fwmark), first.value)
              == Exec(NftScript(ifname, b.addresses, b.fwmark), rules)
  {
    ScriptInstalls(rules, ifname, a.addresses, a.fwmark);
    var first := Installed(rules, ifname, a.addresses, a.fwmark);
    forall id | !Ours(id) ensures (id in rules <==> id in first) && (id in rules ==> rules[id] == first[id]) {
      ScriptFrame(rules, ifname, a.addresses, a.fwmark, id);
    }
    ScriptReplaces(first, rules, ifname, b.addresses, b.fwmark);
  }

  // --- packets -----------------------------------------------------------------

  /** A packet at one of our hooks: where it arrived, its destination, and the marks on it and on its flow. */
  datatype Packet = Packet(iif: string, daddr: IpAddr, saddrLocal: bool, udp: bool, mark: nat, ctMark: nat)

  predicate RuleDrops(r: Rule, p: Packet) {
    r.AntiSpoof? && p.iif != r.ifname && p.daddr == r.daddr && !p.saddrLocal
  }

  /** Our table for the packet's family drops it on the way in. */
  ghost predicate Drops(rules: Ruleset, p: Packet) {
    var id := TableId(p.daddr.family, NFT_TABLE);
    id in rules && TableDrops(rules[id], p)
  }

  ghost predicate TableDrops(t: Table, p: Packet) {
    exists name, r :: name in t && t[name].hook == Prerouting && r in t[name].rules && RuleDrops(r, p)
  }

  ghost predicate HasRule(rules: Ruleset, family: Family, hook: Hook, r: Rule) {
    var id := TableId(family, NFT_TABLE);
    id in rules && TableHas(rules[id], hook, r)
  }

  ghost predicate TableHas(t: Table, hook: Hook, r: Rule) {
    exists name :: name in t && t[name].hook == hook && r in t[name].rules
  }

  /** Incoming UDP gets its flow's saved mark back; outgoing UDP with the tunnel's mark saves it on the flow. */
  ghost function Incoming(rules: Ruleset, p: Packet): Packet {
    if p.udp && HasRule(rules, p.daddr.family, Prerouting, RestoreMark) then p.(mark := p.ctMark) else p
  }

  ghost function Outgoing(rules: Ruleset, p: Packet): Packet {
    if p.udp && HasRule(rules, p.daddr.family, Postrouting, SaveMark(p.mark)) then p.(ctMark := p.mark) else p
  }

  /** The drops of a table that a script left. */
  lemma GuardTableDrops(ifname: string, addrs: seq<IpAddrMask>, fwmark: Option<nat>, p: Packet)
    ensures TableDrops(GuardTable(ifname, addrs, fwmark), p) <==>
            p.iif != ifname && !p.saddrLocal && exists a :: a in addrs && a.address == p.daddr
  {
    var t := GuardTable(ifname, addrs, fwmark);
    var guards := GuardRules(ifname, addrs);
    assert t["preraw"].rules == guards;
    if TableDrops(t, p) {
      var name, r :| name in t && t[name].hook == Prerouting && r in t[name].rules && RuleDrops(r, p);
      assert name == "preraw";
      var i :| 0 <= i < |guards| && guards[i] == r;
      assert addrs[i] in addrs && addrs[i].address == p.daddr;
    }
    if p.iif != ifname && !p.saddrLocal && exists a :: a in addrs && a.address == p.daddr {
      var a :| a in addrs && a.address == p.daddr;
      var i :| 0 <= i < |addrs| && addrs[i] == a;
      assert guards[i] in t["preraw"].rules && RuleDrops(guards[i], p);
    }
  }

  /** The anti-spoof rule, exactly: to a tunnel address, from another interface, not locally sourced. */
  lemma DropsExactly(rules: Ruleset, ifname: string, addresses: seq<IpAddrMask>, fwmark: Option<nat>, p: Packet)
    ensures var after := Exec(NftScript(ifname, addresses, fwmark), rules);
            after.Some? &&
            (Drops(after.value, p) <==>
             && p.iif != ifname && !p.saddrLocal
             && exists a :: a in addresses && a.address == p.daddr)
  {
    ScriptInstalls(rules, ifname, addresses, fwmark);
    OurTable(rules, ifname, addresses, fwmark, p.daddr.family);
    GuardTableDrops(ifname, OfFamily(addresses, p.daddr.family), fwmark, p);
  }

  /** The mark rules of a table that a script left. */
  lemma GuardTableMarks(ifname: string, addrs: seq<IpAddrMask>, fwmark: Option<nat>, m: nat)
    ensures TableHas(GuardTable(ifname, addrs, fwmark), Prerouting, RestoreMark) <==> UsableMark(fwmark)
    ensures TableHas(GuardTable(ifname, addrs, fwmark), Postrouting, SaveMark(m)) <==> m != 0 && fwmark == Some(m)
  {
    var t := GuardTable(ifname, addrs, fwmark);
    assert RestoreMark !in t["preraw"].rules;
    if UsableMark(fwmark) {
      assert RestoreMark in t["premangle"].rules && t["premangle"].hook == Prerouting;
      assert SaveMark(fwmark.value) in t["postmangle"].rules && t["postmangle"].hook == Postrouting;
    }
  }

  /** The mark rules are there exactly when a usable mark is known and the family has an address. */
  lemma MarkRulesExactly(rules: Ruleset, ifname: string, addresses: seq<IpAddrMask>, fwmark: Option<nat>,
                         family: Family, m: nat)
    ensures var after := Exec(NftScript(ifname, addresses, fwmark), rules);
            && after.Some?
            && var guarded := exists a :: a in addresses && a.address.family == family;
            && (HasRule(after.value, family, Prerouting, RestoreMark) <==> guarded && UsableMark(fwmark))
            && (HasRule(after.value, family, Postrouting, SaveMark(m)) <==> guarded && m != 0 && fwmark == Some(m))
  {
    var id := TableId(family, NFT_TABLE);
    ScriptInstalls(rules, ifname, addresses, fwmark);
    OurTable(rules, ifname, addresses, fwmark, family);
    GuardTableMarks(ifname, OfFamily(addresses, family), fwmark, m);
  }

  /** A reply on a flow the tunnel opened carries the tunnel's mark again; an unmarked flow is left alone. */
  lemma MarkIsSticky(rules: Ruleset, ifname: string, addresses: seq<IpAddrMask>, fwmark: nat, sent: Packet,
                     reply: Packet)
    requires fwmark != 0 && sent.udp && reply.udp
    requires exists a :: a in addresses && a.address.family == sent.daddr.family
    requires exists a :: a in addresses && a.address.family == reply.daddr.family
    ensures var after := Exec(NftScript(ifname, addresses, Some(fwmark)), rules);
            && after.Some?
            && var flow := Outgoing(after.value, sent).ctMark;
            && (sent.mark == fwmark ==> Incoming(after.value, reply.(ctMark := flow)).mark == fwmark)
            && (sent.mark != fwmark ==> flow == sent.ctMark)
  {
    MarkRulesExactly(rules, ifname, addresses, Some(fwmark), sent.daddr.family, sent.mark);
    MarkRulesExactly(rules, ifname, addresses, Some(fwmark), reply.daddr.family, sent.mark);
  }

  /** Where the rules hook in, for every family that has an address: the drop before connection tracking, at raw
      priority, and the mark pair after it, at mangle priority; and what other chains there are, none. */
  lemma ChainsExactly(rules: Ruleset, ifname: string, addresses: seq<IpAddrMask>, fwmark: Option<nat>, family: Family)
    requires exists a :: a in addresses && a.address.family == family
    ensures var after := Exec(NftScript(ifname, addresses, fwmark), rules);
            var id := TableId(family, "wirefinder");
            && after.Some? && id in after.value
            && var t := after.value[id];
            && "preraw" in t && t["preraw"].hook == Prerouting && t["preraw"].priority == -300
            && (if fwmark.None? || fwmark.value == 0 then t.Keys == {"preraw"}
                else && t.Keys == {"preraw", "premangle", "postmangle"}
                     && t["premangle"] == Chain(Prerouting, -150, [RestoreMark])
                     && t["postmangle"] == Chain(Postrouting, -150, [SaveMark(fwmark.value)]))
  {
    hide GuardRules, OfFamily;
    ScriptInstalls(rules, ifname, addresses, fwmark);
    OurTable(rules, ifname, addresses, fwmark, family);
  }
}
