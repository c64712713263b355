/** Names and labels of the children of a pool: each tells apart what it is made of, whatever the lane names contain. */
module Names {
  import opened Options

  function Digit(d: nat): char
    requires d < 10
  {
    '0' + d as char
  }

  /** A number as %d prints it. */
  function Decimal(n: nat): string {
    if n < 10 then [Digit(n)] else Decimal(n / 10) + [Digit(n % 10)]
  }

  predicate IsDigit(ch: char) {
    '0' <= ch <= '9'
  }

  function DigitsValue(s: string): nat
    requires forall k :: 0 <= k < |s| ==> IsDigit(s[k])
  {
    if s == "" then 0
    else
      assert IsDigit(s[|s| - 1]);
      DigitsValue(s[..|s| - 1]) * 10 + (s[|s| - 1] as int - '0' as int)
  }

  function Unsigned(s: string): Option<nat> {
    if s != "" && forall k :: 0 <= k < |s| ==> IsDigit(s[k]) then Some(DigitsValue(s)) else None
  }

  /** strconv.Atoi, without its range check. */
  function Atoi(s: string): Option<int> {
    if s != "" && (s[0] == '-' || s[0] == '+') then
      match Unsigned(s[1..])
      case None => None
      case Some(n) => (var v: int := n; Some(if s[0] == '-' then -v else v))
    else
      match Unsigned(s)
      case None => None
      case Some(n) => Some(n)
  }

  lemma {:induction false} DecimalDigits(n: nat)
    ensures Decimal(n) != "" && forall k :: 0 <= k < |Decimal(n)| ==> IsDigit(Decimal(n)[k])
    ensures DigitsValue(Decimal(n)) == n
  {
    if n >= 10 {
      DecimalDigits(n / 10);
      var s := Decimal(n);
      assert s[..|s| - 1] == Decimal(n / 10);
    } else {
      assert Decimal(n)[..0] == "";
    }
  }

  /** The slot label parses back to its slot. */
  lemma SlotLabelRoundTrip(slot: nat)
    ensures Atoi(Decimal(slot)) == Some(slot)
  {
    DecimalDigits(slot);
    assert IsDigit(Decimal(slot)[0]);
  }

  lemma DecimalInjective(m: nat, n: nat)
    requires Decimal(m) == Decimal(n)
    ensures m == n
  {
    DecimalDigits(m);
    DecimalDigits(n);
  }

  function NlbName(pool: string, lane: string, group: nat): string {
    pool + "-" + lane + "-" + Decimal(group)
  }

  function EipName(pool: string, lane: string, group: nat, zone: nat): string {
    NlbName(pool, lane, group) + "-z" + Decimal(zone)
  }

  function PaName(pool: string, slot: nat): string {
    pool + "-s" + Decimal(slot)
  }

  /** What the names look like. */
  lemma NameFormats()
    ensures NlbName("games", "bgp-1", 0) == "games-bgp-1-0"
    ensures EipName("games", "bgp", 12, 1) == "games-bgp-12-z1"
    ensures PaName("games", 305) == "games-s305"
  {
    assert Decimal(12) == Decimal(1) + [Digit(2)] && Decimal(305) == Decimal(30) + [Digit(5)];
    assert Decimal(30) == Decimal(3) + [Digit(0)];
  }

  lemma NoLaterDash(a: string, s: string, k: nat)
    requires '-' !in s && k < |a + "-" + s| && (a + "-" + s)[k] == '-'
    ensures k <= |a|
  {
    var x := a + "-" + s;
    assert forall j :: |a| < j < |x| ==> x[j] == s[j - |a| - 1];
  }

  /** The last dash of a name splits it in one way only. */
  lemma LastDash(a: string, s: string, b: string, t: string)
    requires '-' !in s && '-' !in t && a + "-" + s == b + "-" + t
    ensures a == b && s == t
  {
    var x, y := a + "-" + s, b + "-" + t;
    assert x[|a|] == '-' && y[|b|] == '-';
    NoLaterDash(a, s, |b|);
    NoLaterDash(b, t, |a|);
    assert x[..|a|] == a && y[..|b|] == b;
    assert x[|a| + 1..] == s && y[|b| + 1..] == t;
  }

  lemma NoDash(n: nat)
    ensures '-' !in Decimal(n)
  {
    DecimalDigits(n);
  }

  lemma SamePrefix(p: string, s: string, t: string)
    requires p + s == p + t
    ensures s == t
  {
    assert (p + s)[|p|..] == s && (p + t)[|p|..] == t;
  }

  /** NLB names tell (lane, group) apart. */
  lemma NlbNamesInjective(pool: string, lane: string, group: nat, lane': string, group': nat)
    requires NlbName(pool, lane, group) == NlbName(pool, lane', group')
    ensures lane == lane' && group == group'
  {
    NoDash(group);
    NoDash(group');
    LastDash(pool + "-" + lane, Decimal(group), pool + "-" + lane', Decimal(group'));
    SamePrefix(pool + "-", lane, lane');
    DecimalInjective(group, group');
  }

  /** EIP names tell (lane, group, zone) apart. */
  lemma EipNamesInjective(pool: string, lane: string, group: nat, zone: nat, lane': string, group': nat, zone': nat)
    requires EipName(pool, lane, group, zone) == EipName(pool, lane', group', zone')
    ensures lane == lane' && group == group' && zone == zone'
  {
    var n, n' := NlbName(pool, lane, group), NlbName(pool, lane', group');
    NoDash(zone);
    NoDash(zone');
    assert EipName(pool, lane, group, zone) == n + "-" + ("z" + Decimal(zone));
    assert EipName(pool, lane', group', zone') == n' + "-" + ("z" + Decimal(zone'));
    LastDash(n, "z" + Decimal(zone), n', "z" + Decimal(zone'));
    SamePrefix("z", Decimal(zone), Decimal(zone'));
    DecimalInjective(zone, zone');
    NlbNamesInjective(pool, lane, group, lane', group');
  }

  /** PA names tell slots apart. */
  lemma PaNamesInjective(pool: string, slot: nat, slot': nat)
    requires PaName(pool, slot) == PaName(pool, slot')
    ensures slot == slot'
  {
    SamePrefix(pool + "-s", Decimal(slot), Decimal(slot'));
    DecimalInjective(slot, slot');
  }
}
