/**
 * The tracker (the `Tracker` class of app.py): one in-progress session and
 * an append-only history of completed ones. The clock is not read here:
 * every recording action receives "now" as a parameter.
 *
 * The transitions are first given as a pure state machine (`Record`, `Run`)
 * about which the history invariants are proved; the class `Tracker` then
 * updates its fields in place. Each of its four recording methods promises
 * that its new state is the one `Record` gives; `GameEndAsWritten`, which
 * models the source's failing game end, is the one that does not.
 */
module Tracking {
  import opened Sessions

  /** How many of the latest sessions the summary lists. */
  const RecentCount: nat := 5

  /** Every session in `h` is complete. */
  predicate AllComplete(h: seq<Session>)
  {
    forall i :: 0 <= i < |h| ==> IsComplete(h[i])
  }

  /** The sum of the weighted scores of `h`, added from the front. It fails,
      like the weighted score of the first incomplete entry, unless every
      entry is complete. */
  function TotalScore(h: seq<Session>): (r: Result<real>)
    ensures r.Ok? <==> AllComplete(h)
    ensures r.Err? ==> r.error == NoneOperand
  {
    if h == [] then Ok(0.0)
    else
      assert h == h[..|h| - 1] + [h[|h| - 1]];
      match TotalScore(h[..|h| - 1])
      case Err(e) => Err(e)
      case Ok(t) =>
        match WeightedScore(h[|h| - 1])
        case Err(e) => Err(e)
        case Ok(w) => Ok(t + w)
  }

  /** Appending a complete session adds its weighted score to the total. */
  lemma TotalScoreSnoc(h: seq<Session>, s: Session)
    requires AllComplete(h) && IsComplete(s)
    ensures AllComplete(h + [s])
    ensures TotalScore(h + [s]) == Ok(TotalScore(h).value + WeightedScore(s).value)
  {
    assert (h + [s])[..|h|] == h;
    assert (h + [s])[|h|] == s;
  }

  /** The total over a concatenation is the sum of the totals of its parts. */
  lemma {:induction false} TotalScoreConcat(a: seq<Session>, b: seq<Session>)
    requires AllComplete(a) && AllComplete(b)
    ensures AllComplete(a + b)
    ensures TotalScore(a + b) == Ok(TotalScore(a).value + TotalScore(b).value)
  {
    if b == [] {
      assert a + b == a;
    } else {
      var front, last := b[..|b| - 1], b[|b| - 1];
      assert b == front + [last];
      assert AllComplete(front);
      TotalScoreConcat(a, front);
      TotalScoreSnoc(a + front, last);
      TotalScoreSnoc(front, last);
      assert a + b == (a + front) + [last];
    }
  }

  /** Two sessions scoring 3.0 and -1.5 give a total of 1.5. */
  lemma TwoSessionTotal(s1: Session, s2: Session)
    requires WeightedScore(s1) == Ok(3.0) && WeightedScore(s2) == Ok(-1.5)
    ensures TotalScore([s1, s2]) == Ok(1.5)
  {
    TotalScoreSnoc([], s1);
    assert [] + [s1] == [s1];
    TotalScoreSnoc([s1], s2);
  }

  /** The entries the summary lists: the last `RecentCount` of `h` (all of
      them when there are fewer), oldest first. */
  function Recent(h: seq<Session>): (r: seq<Session>)
    ensures |r| == if |h| < RecentCount then |h| else RecentCount
    ensures h[..|h| - |r|] + r == h
  {
    h[if |h| < RecentCount then 0 else |h| - RecentCount..]
  }

  /** Every listed entry is complete, so displaying it cannot fail. */
  lemma RecentAllComplete(h: seq<Session>)
    requires AllComplete(h)
    ensures AllComplete(Recent(h))
  {
    var r := Recent(h);
    forall i | 0 <= i < |r| ensures IsComplete(r[i]) { assert r[i] == h[|h| - |r| + i]; }
  }

  /** The summary's total is over the whole history, not just the listed
      entries: it is the listed entries' total plus that of the older ones. */
  lemma TotalCoversWholeHistory(h: seq<Session>)
    requires AllComplete(h)
    ensures var older := h[..|h| - |Recent(h)|];
            TotalScore(h) == Ok(TotalScore(older).value + TotalScore(Recent(h)).value)
  {
    var older, recent := h[..|h| - |Recent(h)|], Recent(h);
    assert AllComplete(older) && AllComplete(recent) by {
      forall i | 0 <= i < |older| ensures IsComplete(older[i]) { assert older[i] == h[i]; }
      forall i | 0 <= i < |recent| ensures IsComplete(recent[i]) { assert recent[i] == h[|older| + i]; }
    }
    TotalScoreConcat(older, recent);
  }

  // ---------------------------------------------------------------------
  // The tracker as a state machine

  datatype State = State(history: seq<Session>, current: Session)

  /** The state of a newly constructed tracker. */
  function Initial(): (st: State)
    ensures st.history == [] && !IsComplete(st.current)
    ensures forall f :: Get(st.current, f) == None
  {
    State([], Fresh())
  }

  /** One recording action at time `now`: stamp field `f` of the current
      session; when the action is the game end and the stamped session is
      then complete, append it to the history and start a fresh session. */
  function Record(st: State, f: Field, now: Timestamp): (r: State)
    ensures r.history == st.history || r.history == st.history + [Stamp(st.current, f, now)]
    ensures |r.history| != |st.history| <==> f == GameEnd && IsComplete(Stamp(st.current, f, now))
    ensures |r.history| != |st.history| ==> r.current == Fresh()
    ensures |r.history| == |st.history| ==> r.current == Stamp(st.current, f, now)
  {
    var stamped := Stamp(st.current, f, now);
    if f == GameEnd && IsComplete(stamped) then State(st.history + [stamped], Fresh())
    else State(st.history, stamped)
  }

  /** The state after the actions `ops`, in order. */
  function Run(st: State, ops: seq<Stamping>): State
  {
    if ops == [] then st
    else Record(Run(st, ops[..|ops| - 1]), ops[|ops| - 1].field, ops[|ops| - 1].time)
  }

  /** A run extended by one action ends in that action's transition. */
  lemma RunSnoc(st: State, ops: seq<Stamping>, op: Stamping)
    ensures Run(st, ops + [op]) == Record(Run(st, ops), op.field, op.time)
  {
    assert (ops + [op])[..|ops|] == ops;
  }

  /** The number of game-end actions in `ops`. */
  function GameEnds(ops: seq<Stamping>): nat
  {
    if ops == [] then 0
    else GameEnds(ops[..|ops| - 1]) + (if ops[|ops| - 1].field == GameEnd then 1 else 0)
  }

  /** Over any run: the old history is a prefix of the new one, only complete
      sessions are ever added, and at most one per game-end action. */
  lemma {:induction false} RunExtendsHistory(st: State, ops: seq<Stamping>)
    ensures st.history <= Run(st, ops).history
    ensures AllComplete(Run(st, ops).history[|st.history|..])
    ensures |Run(st, ops).history| <= |st.history| + GameEnds(ops)
  {
    if ops != [] {
      var prefix := ops[..|ops| - 1];
      RunExtendsHistory(st, prefix);
      var mid := Run(st, prefix).history;
      var h := Run(st, ops).history;
      assert h[|st.history|..] == mid[|st.history|..] || h[|st.history|..] == mid[|st.history|..] + [h[|h| - 1]];
    }
  }

  /** Every action keeps the invariant that the history holds only complete
      sessions. */
  lemma RunKeepsHistoryComplete(st: State, ops: seq<Stamping>)
    requires AllComplete(st.history)
    ensures AllComplete(Run(st, ops).history)
  {
    RunExtendsHistory(st, ops);
    var h := Run(st, ops).history;
    forall i | 0 <= i < |h| ensures IsComplete(h[i]) {
      if i >= |st.history| {
        assert h[i] == h[|st.history|..][i - |st.history|];
      }
    }
  }

  /** Archival happens once per session: right after a session is archived,
      a further game end only stamps the fresh session and archives nothing. */
  lemma NoDoubleArchive(st: State, t1: Timestamp, t2: Timestamp)
    requires |Record(st, GameEnd, t1).history| > |st.history|
    ensures Record(Record(st, GameEnd, t1), GameEnd, t2).history == Record(st, GameEnd, t1).history
  {
    var after := Record(st, GameEnd, t1);
    assert !IsComplete(Stamp(after.current, GameEnd, t2)) by {
      assert Get(Stamp(Fresh(), GameEnd, t2), StudyStart) == None;
    }
  }

  /** A session whose game start is never recorded is not archived: the game
      end leaves it current, and the history empty. */
  lemma PartialSessionStaysCurrent(t1: Timestamp, t2: Timestamp, t3: Timestamp)
    ensures Run(Initial(), [Stamping(StudyStart, t1), Stamping(StudyEnd, t2), Stamping(GameEnd, t3)])
            == State([], Session(Some(t1), Some(t2), None, Some(t3)))
  {
    var a, b, c := Stamping(StudyStart, t1), Stamping(StudyEnd, t2), Stamping(GameEnd, t3);
    RunSnoc(Initial(), [], a);
    RunSnoc(Initial(), [a], b);
    RunSnoc(Initial(), [a, b], c);
    assert [] + [a] == [a] && [a] + [b] == [a, b] && [a, b] + [c] == [a, b, c];
  }

  // ---------------------------------------------------------------------
  // The tracker object

  class Tracker {
    var history: seq<Session>
    var current: Session

    /** Every archived session is complete. */
    ghost predicate Valid()
      reads this
    {
      AllComplete(history)
    }

    function Snapshot(): State
      reads this
    {
      State(history, current)
    }

    constructor ()
      ensures Valid()
      ensures Snapshot() == Initial()
    {
      history := [];
      current := Fresh();
    }

    method StudyStart(now: Timestamp)
      requires Valid()
      modifies this
      ensures Valid()
      ensures history == old(history) && current == old(current).(studyStart := Some(now))
      ensures Snapshot() == Record(old(Snapshot()), Field.StudyStart, now)
    {
      current := current.(studyStart := Some(now));
    }

    method StudyEnd(now: Timestamp)
      requires Valid()
      modifies this
      ensures Valid()
      ensures history == old(history) && current == old(current).(studyEnd := Some(now))
      ensures Snapshot() == Record(old(Snapshot()), Field.StudyEnd, now)
    {
      current := current.(studyEnd := Some(now));
    }

    method GameStart(now: Timestamp)
      requires Valid()
      modifies this
      ensures Valid()
      ensures history == old(history) && current == old(current).(gameStart := Some(now))
      ensures Snapshot() == Record(old(Snapshot()), Field.GameStart, now)
    {
      current := current.(gameStart := Some(now));
    }

    /** Records the game end, then archives the session if it is complete.
        The source's confirmation message reads `game_end` from the tracker
        instead of from its current session, which is the method itself and
        has no time to format; this method models the evident intent, with
        the message left out. `GameEndAsWritten` models the code as it
        stands. */
    method GameEnd(now: Timestamp)
      requires Valid()
      modifies this
      ensures Valid()
      ensures var stamped := old(current).(gameEnd := Some(now));
              if IsComplete(stamped) then history == old(history) + [stamped] && current == Fresh()
              else history == old(history) && current == stamped
      ensures Snapshot() == Record(old(Snapshot()), Field.GameEnd, now)
    {
      current := current.(gameEnd := Some(now));
      if IsComplete(current) {
        history := history + [current];
        current := Fresh();
      }
    }

    /** The game end as the source is written: the field is set, and then
        formatting the confirmation fails before the completeness check, so
        nothing is ever archived. */
    method GameEndAsWritten(now: Timestamp) returns (r: Result<()>)
      requires Valid()
      modifies this
      ensures Valid()
      ensures history == old(history) && current == old(current).(gameEnd := Some(now))
      ensures r == Err(NoSuchAttribute)
    {
      current := current.(gameEnd := Some(now));
      r := Err(NoSuchAttribute);
    }

    /** What the summary shows: the readable form of the last `RecentCount`
        sessions, oldest first, and the total weighted score of the whole
        history. */
    method HistorySummary() returns (lines: seq<Display>, total: real)
      requires Valid()
      ensures |lines| == |Recent(history)| <= RecentCount
      ensures forall i :: 0 <= i < |lines| ==> Readable(Recent(history)[i]) == Ok(lines[i])
      ensures TotalScore(history) == Ok(total)
    {
      RecentAllComplete(history);
      lines := ReadableAll(Recent(history));
      total := SumWeightedScores(history);
    }
  }

  /** The readable form of each of `sessions`, in order, as the summary's
      listing loop produces them. */
  method ReadableAll(sessions: seq<Session>) returns (lines: seq<Display>)
    requires AllComplete(sessions)
    ensures |lines| == |sessions|
    ensures forall i :: 0 <= i < |lines| ==> Readable(sessions[i]) == Ok(lines[i])
  {
    lines := [];
    for i := 0 to |sessions|
      invariant |lines| == i
      invariant forall k :: 0 <= k < i ==> Readable(sessions[k]) == Ok(lines[k])
    {
      lines := lines + [Readable(sessions[i]).value];
    }
  }

  /** Adds up the weighted scores of `h` one entry at a time, as the
      summary's `sum` does. */
  method SumWeightedScores(h: seq<Session>) returns (total: real)
    requires AllComplete(h)
    ensures TotalScore(h) == Ok(total)
  {
    total := 0.0;
    for i := 0 to |h|
      invariant TotalScore(h[..i]) == Ok(total)
    {
      assert h[..i + 1] == h[..i] + [h[i]];
      TotalScoreSnoc(h[..i], h[i]);
      total := total + WeightedScore(h[i]).value;
    }
    assert h[..|h|] == h;
  }

  /** One full cycle of the four actions on a new tracker: the intended game
      end archives the session, the game end as written archives nothing. */
  method FullCycle(t1: Timestamp, t2: Timestamp, t3: Timestamp, t4: Timestamp)
    returns (archived: nat, archivedAsWritten: nat)
    ensures archived == 1 && archivedAsWritten == 0
  {
    var intended := new Tracker();
    intended.StudyStart(t1);
    intended.StudyEnd(t2);
    intended.GameStart(t3);
    intended.GameEnd(t4);
    archived := |intended.history|;

    var asWritten := new Tracker();
    asWritten.StudyStart(t1);
    asWritten.StudyEnd(t2);
    asWritten.GameStart(t3);
    var _ := asWritten.GameEndAsWritten(t4);
    archivedAsWritten := |asWritten.history|;
  }
}
