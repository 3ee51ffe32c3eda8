/**
 * A worked payment: channels A–B (capacity 1000, 500/500, no fees) and B–C
 * (capacity 1000, 500/500, base fee 10, rate 1/100); A pays C 100.
 */
module Scenario {
  import opened Wrappers
  import opened Ids
  import opened Fees
  import opened Channels
  import opened Ledgers
  import opened Networks

  /**
   * The ledger of the two channels before the payment: each at 500/500 of
   * 1000 with nothing earned; A–B charges nothing, B–C 10 plus 1/100.
   */
  predicate Before(l: Ledger) {
    && l.Keys == {Key("A", "B"), Key("B", "C")}
    && var ab, bc := l[Key("A", "B")], l[Key("B", "C")];
    && ab.nodeA == "A" && ab.nodeB == "B" && ab.capacity == 1000 && ab.balanceA == 500 && ab.balanceB == 500
    && ab.baseFee == 0 && ab.feeRate.num == 0 && ab.feeEarned == 0
    && bc.nodeA == "B" && bc.nodeB == "C" && bc.capacity == 1000 && bc.balanceA == 500 && bc.balanceB == 500
    && bc.baseFee == 10 && bc.feeRate.num == 1 && bc.feeRate.den == 100 && bc.feeEarned == 0
  }

  /** Both channels at 389/611; B–C has earned 11 in fees and A–B nothing. */
  predicate After(l: Ledger) {
    && l.Keys == {Key("A", "B"), Key("B", "C")}
    && l[Key("A", "B")].balanceA == 389 && l[Key("A", "B")].balanceB == 611 && l[Key("A", "B")].feeEarned == 0
    && l[Key("B", "C")].balanceA == 389 && l[Key("B", "C")].balanceB == 611 && l[Key("B", "C")].feeEarned == 11
  }

  /** The sorted-pair keys of the two channels. */
  lemma Keys()
    ensures KeyOf("A", "B") == Key("A", "B") && KeyOf("B", "A") == Key("A", "B")
    ensures KeyOf("B", "C") == Key("B", "C") && KeyOf("C", "B") == Key("B", "C")
  {
    assert AtMost("A", "B") && !AtMost("B", "A");
    assert AtMost("B", "C") && !AtMost("C", "B");
  }

  /** The ledger is keyed consistently, and both walks toward C follow its channels. */
  lemma BeforeConsistent(l: Ledger)
    requires Before(l)
    ensures Consistent(l) && Hops(l, ["A", "B", "C"]) && Hops(l, ["B", "C"])
  {
    Keys();
    assert ["A", "B", "C"][1] == "B";
  }

  /** C's label is 100, B's is 100 + 10 + 1 = 111 and A's is 111 + 0. */
  lemma Labels(l: Ledger)
    requires Before(l)
    ensures Hops(l, ["B", "C"]) && Cost(l, ["B", "C"], 100) == 111
    ensures Hops(l, ["A", "B", "C"]) && Cost(l, ["A", "B", "C"], 100) == 111
  {
    BeforeConsistent(l);
    Keys();
    assert Scaled(100, l[Key("B", "C")].feeRate) == 1;
    assert Scaled(111, l[Key("A", "B")].feeRate) == 0;
    assert ["B", "C"][1..] == ["C"];
    assert ["A", "B", "C"][1..] == ["B", "C"];
  }

  /** Both hops pass the search's check: B's side of B–C holds 500 ≥ 100, A's side of A–B holds 500 ≥ 111. */
  lemma RouteViable(l: Ledger)
    requires Before(l)
    ensures Viable(l, ["A", "B", "C"], "A", "C", 100) && Distinct(["A", "B", "C"])
  {
    var p := ["A", "B", "C"];
    Labels(l);
    Keys();
    assert p[1..] == ["B", "C"] && p[2..] == ["C"];
    assert l[KeyOf(p[0], p[1])].CanForward(p[0], Cost(l, p[1..], 100)) == Ok(true);
    assert l[KeyOf(p[1], p[2])].CanForward(p[1], Cost(l, p[2..], 100)) == Ok(true);
    assert p[0][0] == 'A' && p[1][0] == 'B' && p[2][0] == 'C';
  }

  /**
   * Executing A, B, C sends 111 out of A, moves 111 across both channels
   * and books the fee of 11 on B–C alone.
   */
  lemma RouteExecuted(l: Ledger)
    requires Before(l)
    ensures Hops(l, ["A", "B", "C"]) && Consistent(l)
    ensures Walk(l, ["A", "B", "C"], 100).1 == 111 && After(Walk(l, ["A", "B", "C"], 100).0)
  {
    BeforeConsistent(l);
    Labels(l);
    Keys();
    var p := ["A", "B", "C"];
    assert p[1..] == ["B", "C"] && p[1..][1..] == ["C"];
    WalkCost(l, ["B", "C"], 100);
    WalkCost(l, p, 100);
    var l1 := Walk(l, ["B", "C"], 100).0;
    assert l1 == l[Key("B", "C") := Hop(l[Key("B", "C")], "B", 100).0];
    assert Walk(l, p, 100).0 == l1[Key("A", "B") := Hop(l1[Key("A", "B")], "A", 111).0];
  }

  /** The only walk of the two channels from A to C that repeats no node is A, B, C. */
  lemma OnlyRoute(l: Ledger, path: seq<NodeId>)
    requires Before(l) && Distinct(path) && Viable(l, path, "A", "C", 100)
    ensures path == ["A", "B", "C"]
  {
    Keys();
    assert |path| >= 2;
    assert KeyOf(path[0], path[1]) in l;
    assert path[1] == "B";
    assert |path| >= 3;
    assert KeyOf(path[1], path[2]) in l;
    assert path[2] == "C";
    assert |path| == 3;
  }

  /**
   * Whatever `execute_payment` returns for A paying C 100 on these channels,
   * its contract pins the outcome: success along A, B, C, 11 in fees, and
   * both channels at 389/611.
   */
  lemma Payment(l: Ledger, l': Ledger, path: seq<NodeId>, success: bool, fees: int)
    requires Before(l) && Settles(l, l', {"A", "B", "C"}, "A", "C", 100, path, success, fees)
    ensures success && path == ["A", "B", "C"] && fees == 11 && After(l')
  {
    RouteViable(l);
    RouteExecuted(l);
    Labels(l);
    if success {
      OnlyRoute(l, path);
    }
  }
}
