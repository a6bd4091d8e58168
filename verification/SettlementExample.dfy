/**
 Two runs from the empty database. In the first two settled rows name one payment. The maker's client pays the first of
 two rows that ask for the same transfer, when it has left the cache, and writes the payment's hash to it; the payment,
 delivered, is matched in memory to the other, since the source chain is not compared; delivered again, it finds the
 first row by its name. In the second run two payments find one row before either is saved, and the second takes it over.
 */
module SettlementExample {
  import opened Wrappers
  import opened Tables
  import opened Text
  import opened Settlement
  import opened SettlementSafety

  const A := Transfer("A", "1", V10, 2, 0, "2", "user", "maker", "ETH", "1", None)
  const B := Transfer("B", "3", V10, 2, 0, "2", "user", "maker", "ETH", "1", None)
  const H := Transfer("H", "2", V11, 2, 10, "0", "maker", "user", "ETH", "1", None)
  const WANTED := Target("2", "user", "ETH", "1", "", {"maker"})
  const CACHED_B := Cached(2, "B", 0, WANTED)

  // A row as it is built, and with what is written to it.
  function RowOf(h: Hash, chain: Chain, status: int, payment: Option<Hash>): Row
  {
    Row(h, chain, 0, WANTED, status, payment)
  }

  const NO_TASKS: map<nat, Task> := map[]

  const S1 := State(map["A" := A], map["A" := 0], map[], 1, [], NO_TASKS)
  const S2 := S1.(tasks := map[0 := SourceRead("A", None)])
  const S3 := State(map["A" := A], map["A" := 1], map[1 := RowOf("A", "1", 0, None)], 2, [], NO_TASKS)
  const S4 := State(map["A" := A, "B" := B], map["A" := 1, "B" := 0], map[1 := RowOf("A", "1", 0, None)], 2, [], NO_TASKS)
  const S5 := S4.(tasks := map[0 := SourceRead("B", None)])
  const S6 := State(map["A" := A, "B" := B], map["A" := 1, "B" := 1],
                    map[1 := RowOf("A", "1", 0, None), 2 := RowOf("B", "3", 0, None)], 3, [CACHED_B], NO_TASKS)
  const S7 := S6.(rows := map[1 := RowOf("A", "1", PAID_SUCCESS, Some("H")), 2 := RowOf("B", "3", 0, None)])
  const S8 := S7.(txs := map["A" := A, "B" := B, "H" := H], ops := map["A" := 1, "B" := 1, "H" := 0])
  const S9 := S8.(rows := map[1 := RowOf("A", "1", PAID_SUCCESS, Some("H")), 2 := RowOf("B", "3", BRIDGE_SUCCESS, Some("H"))],
                  ops := map["A" := 1, "B" := BRIDGE_SUCCESS, "H" := BRIDGE_SUCCESS])
  const S10 := S9.(tasks := map[0 := SearchDb("H")])
  const S11 := S9.(tasks := map[0 := Matched("H", 1)])
  const S12 := S9.(rows := map[1 := RowOf("A", "1", BRIDGE_SUCCESS, Some("H")), 2 := RowOf("B", "3", BRIDGE_SUCCESS, Some("H"))],
                   ops := map["A" := BRIDGE_SUCCESS, "B" := BRIDGE_SUCCESS, "H" := BRIDGE_SUCCESS])

  const LOOKALIKE: seq<Event> := [
    Arrives(A, 0), SourceReads(0, "A", None), SourceCommits(0, WANTED, 0, Commits, false),
    Arrives(B, 0), SourceReads(0, "B", None), SourceCommits(0, WANTED, 0, Commits, true),
    MakerPays(1, PAID_SUCCESS, Some("H")), Arrives(H, 0),
    PaymentTries(0, "H", false), PaymentTries(0, "H", false),
    PaymentSearches(0, Some(1)), PaymentSaves(0, false)]

  lemma FirstSource()
    ensures Next(Empty, Arrives(A, 0)) == S1
    ensures Next(S1, SourceReads(0, "A", None)) == S2
    ensures Next(S2, SourceCommits(0, WANTED, 0, Commits, false)) == S3
  {
    assert S2.tasks - {0} == NO_TASKS;
  }

  lemma SecondSource()
    ensures Next(S3, Arrives(B, 0)) == S4
    ensures Next(S4, SourceReads(0, "B", None)) == S5
    ensures Next(S5, SourceCommits(0, WANTED, 0, Commits, true)) == S6
  {
    assert S5.tasks - {0} == NO_TASKS;
  }

  lemma Paid()
    ensures Next(S6, MakerPays(1, PAID_SUCCESS, Some("H"))) == S7
    ensures Next(S7, Arrives(H, 0)) == S8
  {
  }

  lemma MatchedOther()
    ensures Next(S8, PaymentTries(0, "H", false)) == S9
  {
    assert FindCached(S8.cache, H) == Some(CACHED_B) && MemoryGuards(S8, H, 2, "B");
    assert CloseBoth(S8.ops, "H", "B") == S9.ops;
    assert Settled(S8, H, 2).rows == S9.rows;
  }

  lemma Redelivered()
    ensures Next(S9, PaymentTries(0, "H", false)) == S10
  {
  }

  lemma FoundFirst()
    ensures Next(S10, PaymentSearches(0, Some(1))) == S11
  {
    assert ByTarget(S10, H, 1) && Finds(S10, H, Some(1));
    assert S10.tasks[0 := Matched("H", 1)] == S11.tasks;
    hide Finds;
  }

  // A save, table by table.
  lemma Saves(s: State, t: nat, h: Hash, id: nat)
    requires t in s.tasks && s.tasks[t] == Matched(h, id) && h in s.txs && id in s.rows
    ensures Next(s, PaymentSaves(t, false))
         == s.(tasks := s.tasks - {t}, rows := s.rows[id := Settle(s.rows[id], s.txs[h])],
               ops := CloseBoth(s.ops, s.txs[h].hash, s.rows[id].sourceId))
  {
    hide CloseBoth, Settle;
  }

  lemma FoundWrites()
    ensures S11.tasks - {0} == NO_TASKS && CloseBoth(S11.ops, "H", "A") == S12.ops
    ensures S11.rows[1] == RowOf("A", "1", PAID_SUCCESS, Some("H")) && S11.txs["H"] == H
    ensures S11.rows[1 := Settle(S11.rows[1], H)] == S12.rows
  {
  }

  lemma SavedFirst()
    ensures Next(S11, PaymentSaves(0, false)) == S12
  {
    FoundWrites();
    hide Next, CloseBoth, Settle;
    Saves(S11, 0, "H", 1);
  }

  lemma RunPrefix(events: seq<Event>, k: nat)
    requires k < |events|
    ensures Run(events[..k + 1]) == Next(Run(events[..k]), events[k])
  {
    assert events[..k + 1][..k] == events[..k];
  }

  lemma Replay(events: seq<Event>)
    requires events == LOOKALIKE
    ensures Run(events) == S12
  {
    hide Run, Next;
    RunPrefix(events, 0);
    RunPrefix(events, 1);
    RunPrefix(events, 2);
    RunPrefix(events, 3);
    RunPrefix(events, 4);
    RunPrefix(events, 5);
    RunPrefix(events, 6);
    RunPrefix(events, 7);
    RunPrefix(events, 8);
    RunPrefix(events, 9);
    RunPrefix(events, 10);
    RunPrefix(events, 11);
    assert events[..0] == [] && events[..12] == events;
    NothingYet();
    FirstSource();
    SecondSource();
    Paid();
    MatchedOther();
    Redelivered();
    FoundFirst();
    SavedFirst();
    assert Run(events[..3]) == S3;
    assert Run(events[..6]) == S6;
    assert Run(events[..9]) == S9;
  }

  lemma NothingYet()
    ensures Run([]) == Empty
  {
  }

  /** After this run both rows are settled and name the one payment. */
  lemma LookalikesShareOnePayment()
    ensures !OneToOne(Run(LOOKALIKE).rows)
  {
    Replay(LOOKALIKE);
    hide Run;
    assert Names(S12.rows, 1, "H") && Names(S12.rows, 2, "H");
  }

  // ---------- a stale search ----------

  const P := H.(hash := "P")
  const Q := H.(hash := "Q")
  const WAITS := RowOf("A", "1", 0, None)

  const R4 := S3.(txs := map["A" := A, "P" := P], ops := map["A" := 1, "P" := 0])
  const R5 := S3.(txs := map["A" := A, "P" := P, "Q" := Q], ops := map["A" := 1, "P" := 0, "Q" := 0])
  const R6 := R5.(tasks := map[0 := SearchDb("P")])
  const R7 := R5.(tasks := map[0 := SearchDb("P"), 1 := SearchDb("Q")])
  const R8 := R5.(tasks := map[0 := Matched("P", 1), 1 := SearchDb("Q")])
  const R9 := R5.(tasks := map[0 := Matched("P", 1), 1 := Matched("Q", 1)])
  const R10 := R5.(tasks := map[1 := Matched("Q", 1)], rows := map[1 := RowOf("A", "1", BRIDGE_SUCCESS, Some("P"))],
                   ops := map["A" := BRIDGE_SUCCESS, "P" := BRIDGE_SUCCESS, "Q" := 0])
  const R11 := R5.(rows := map[1 := RowOf("A", "1", BRIDGE_SUCCESS, Some("Q"))],
                   ops := map["A" := BRIDGE_SUCCESS, "P" := BRIDGE_SUCCESS, "Q" := BRIDGE_SUCCESS])

  const RACE: seq<Event> := [
    Arrives(A, 0), SourceReads(0, "A", None), SourceCommits(0, WANTED, 0, Commits, false),
    Arrives(P, 0), Arrives(Q, 0), PaymentTries(0, "P", false), PaymentTries(1, "Q", false),
    PaymentSearches(0, Some(1)), PaymentSearches(1, Some(1)), PaymentSaves(0, false)]

  lemma TwoPayments()
    ensures Next(S3, Arrives(P, 0)) == R4
    ensures Next(R4, Arrives(Q, 0)) == R5
  {
  }

  lemma BothTry()
    ensures Next(R5, PaymentTries(0, "P", false)) == R6
    ensures Next(R6, PaymentTries(1, "Q", false)) == R7
  {
  }

  lemma RowWaits()
    ensures R7.rows == R8.rows == map[1 := WAITS]
    ensures Finds(R7, P, Some(1)) && Finds(R8, Q, Some(1))
  {
    assert DbMatch(WAITS, P) && DbMatch(WAITS, Q);
    hide DbMatch;
  }

  lemma BothFind()
    ensures Next(R7, PaymentSearches(0, Some(1))) == R8
    ensures Next(R8, PaymentSearches(1, Some(1))) == R9
  {
    RowWaits();
    hide Finds;
    assert R7.tasks[0 := Matched("P", 1)] == R8.tasks;
    assert R8.tasks[1 := Matched("Q", 1)] == R9.tasks;
  }

  lemma FirstWrites()
    ensures R9.tasks - {0} == R10.tasks && CloseBoth(R9.ops, "P", "A") == R10.ops
    ensures R9.rows[1] == WAITS && R9.txs["P"] == P && R9.rows[1 := Settle(WAITS, P)] == R10.rows
  {
  }

  lemma FirstSaved()
    ensures Next(R9, PaymentSaves(0, false)) == R10
  {
    FirstWrites();
    hide Next, CloseBoth, Settle;
    Saves(R9, 0, "P", 1);
  }

  lemma SecondWrites()
    ensures R10.tasks - {1} == NO_TASKS && CloseBoth(R10.ops, "Q", "A") == R11.ops
    ensures R10.txs["Q"] == Q && R10.rows[1 := Settle(R10.rows[1], Q)] == R11.rows && R10.rows[1].sourceId == "A"
  {
  }

  lemma SecondSaved()
    ensures Next(R10, PaymentSaves(1, false)) == R11
  {
    SecondWrites();
    hide Next, CloseBoth, Settle;
    Saves(R10, 1, "Q", 1);
  }

  lemma RaceBegins(events: seq<Event>)
    requires events == RACE
    ensures Run(events[..7]) == R7
  {
    hide Run, Next;
    RunPrefix(events, 0);
    RunPrefix(events, 1);
    RunPrefix(events, 2);
    RunPrefix(events, 3);
    RunPrefix(events, 4);
    RunPrefix(events, 5);
    RunPrefix(events, 6);
    assert events[..0] == [];
    NothingYet();
    FirstSource();
    TwoPayments();
    BothTry();
    assert Run(events[..3]) == S3;
  }

  lemma ReplayRace(events: seq<Event>)
    requires events == RACE
    ensures Run(events) == R10
  {
    hide Run, Next;
    RaceBegins(events);
    RunPrefix(events, 7);
    RunPrefix(events, 8);
    RunPrefix(events, 9);
    assert events[..10] == events;
    BothFind();
    FirstSaved();
  }

  /** The first payment has settled the row for good, were it not for the second, which found it before: its save takes
      the row over, and the first payment is closed without a row. */
  lemma StaleSaveOvertakes()
    ensures var s, n := Run(RACE), Run(RACE + [PaymentSaves(1, false)]);
      && Final(s, 1, "P") && Final(n, 1, "Q") && n.rows.Keys == {1} && "P" in n.ops && n.ops["P"] == BRIDGE_SUCCESS
  {
    ReplayRace(RACE);
    SecondSaved();
    var all := RACE + [PaymentSaves(1, false)];
    assert all[..10] == RACE && all[..11] == all;
    RunPrefix(all, 10);
    hide Run, Next;
    assert Final(R10, 1, "P") && Final(R11, 1, "Q");
  }
}
