/**
 * One study/game session: four optional timestamps and the quantities
 * derived from them (the `Session` class of app.py).
 *
 * A timestamp is a whole number of seconds of wall-clock time in the
 * tracker's one fixed zone. The tracker stamps every field with datetimes
 * that share a single tzinfo object, and two such datetimes subtract as
 * wall-clock times, so an integer count of local seconds gives the same
 * differences. Hours are `real`, so `(end - start) / 3600` is exact.
 */
module Sessions {

  datatype Option<+T> = None | Some(value: T)

  /** The ways a read of a session fails. The source checks nothing up front:
      it fails when it touches a field that is still unset (or, in one place,
      an attribute that does not exist). */
  datatype Error =
    | NoneOperand        // `end - start` with an unset operand (a TypeError)
    | NoneFormatted      // `strftime` called on an unset field (an AttributeError)
    | NoSuchAttribute    // `strftime` called on a bound method (an AttributeError)

  datatype Result<+T> = Ok(value: T) | Err(error: Error)

  type Timestamp = int

  const SecondsPerHour: int := 3600

  /** The four fields, one per recording action. */
  datatype Field = StudyStart | StudyEnd | GameStart | GameEnd

  datatype Session = Session(
    studyStart: Option<Timestamp>,
    studyEnd: Option<Timestamp>,
    gameStart: Option<Timestamp>,
    gameEnd: Option<Timestamp>)

  /** The four timestamps of a complete session, in the order they are shown. */
  datatype Display = Display(studyFrom: Timestamp, studyTo: Timestamp, gameFrom: Timestamp, gameTo: Timestamp)

  function Get(s: Session, f: Field): Option<Timestamp>
  {
    match f
    case StudyStart => s.studyStart
    case StudyEnd => s.studyEnd
    case GameStart => s.gameStart
    case GameEnd => s.gameEnd
  }

  /** A newly constructed session: nothing recorded yet. */
  function Fresh(): (s: Session)
    ensures forall f :: Get(s, f) == None
    ensures !IsComplete(s)
  {
    Session(None, None, None, None)
  }

  /** A session is complete when every one of its four fields is set. */
  predicate IsComplete(s: Session)
    ensures IsComplete(s) <==> forall f :: Get(s, f).Some?
  {
    assert Get(s, StudyStart) == s.studyStart && Get(s, StudyEnd) == s.studyEnd;
    assert Get(s, GameStart) == s.gameStart && Get(s, GameEnd) == s.gameEnd;
    s.studyStart.Some? && s.studyEnd.Some? && s.gameStart.Some? && s.gameEnd.Some?
  }

  /** Sets one field to `t`, overwriting any earlier value; the other three
      fields keep theirs. */
  function Stamp(s: Session, f: Field, t: Timestamp): (r: Session)
    ensures Get(r, f) == Some(t)
    ensures forall g :: g != f ==> Get(r, g) == Get(s, g)
  {
    match f
    case StudyStart => s.(studyStart := Some(t))
    case StudyEnd => s.(studyEnd := Some(t))
    case GameStart => s.(gameStart := Some(t))
    case GameEnd => s.(gameEnd := Some(t))
  }

  /** Hours from `start` to `end`: negative when `end` precedes `start`,
      since nothing orders the two. */
  function Hours(start: Timestamp, end: Timestamp): (h: real)
    ensures h * SecondsPerHour as real == (end - start) as real
    ensures h < 0.0 <==> end < start
    ensures h == 0.0 <==> end == start
  {
    (end - start) as real / SecondsPerHour as real
  }

  /** Hours between two optional timestamps; fails unless both are set. */
  function Elapsed(start: Option<Timestamp>, end: Option<Timestamp>): (r: Result<real>)
    ensures r.Ok? <==> start.Some? && end.Some?
    ensures r.Err? ==> r.error == NoneOperand
    ensures r.Ok? ==> r.value * SecondsPerHour as real == (end.value - start.value) as real
  {
    if start.Some? && end.Some? then Ok(Hours(start.value, end.value)) else Err(NoneOperand)
  }

  function StudyDuration(s: Session): (r: Result<real>)
    ensures r.Ok? <==> s.studyStart.Some? && s.studyEnd.Some?
    ensures r.Err? ==> r.error == NoneOperand
    ensures r.Ok? ==> r.value * SecondsPerHour as real == (s.studyEnd.value - s.studyStart.value) as real
  {
    Elapsed(s.studyStart, s.studyEnd)
  }

  function GameDuration(s: Session): (r: Result<real>)
    ensures r.Ok? <==> s.gameStart.Some? && s.gameEnd.Some?
    ensures r.Err? ==> r.error == NoneOperand
    ensures r.Ok? ==> r.value * SecondsPerHour as real == (s.gameEnd.value - s.gameStart.value) as real
  {
    Elapsed(s.gameStart, s.gameEnd)
  }

  /** Study hours minus twice the game hours. It is defined exactly when the
      session is complete; otherwise the first unset operand makes it fail. */
  function WeightedScore(s: Session): (r: Result<real>)
    ensures r.Ok? <==> IsComplete(s)
    ensures r.Err? ==> r.error == NoneOperand
    ensures r.Ok? ==> r.value == StudyDuration(s).value - 2.0 * GameDuration(s).value
    ensures r.Ok? ==> r.value * SecondsPerHour as real
                      == ((s.studyEnd.value - s.studyStart.value)
                          - 2 * (s.gameEnd.value - s.gameStart.value)) as real
  {
    match StudyDuration(s)
    case Err(e) => Err(e)
    case Ok(study) =>
      match GameDuration(s)
      case Err(e) => Err(e)
      case Ok(game) => Ok(study - 2.0 * game)
  }

  /** The four timestamps `readable` renders, in its order. Rendering them
      as 12-hour clock text is not modelled; what is kept is that every
      field must be set. */
  function Readable(s: Session): (r: Result<Display>)
    ensures r.Ok? <==> IsComplete(s)
    ensures r.Err? ==> r.error == NoneFormatted
    ensures r.Ok? ==> r.value == Display(s.studyStart.value, s.studyEnd.value, s.gameStart.value, s.gameEnd.value)
  {
    match s
    case Session(Some(a), Some(b), Some(c), Some(d)) => Ok(Display(a, b, c, d))
    case _ => Err(NoneFormatted)
  }

  // ---------------------------------------------------------------------
  // Sequences of recording actions applied to one session

  /** One recording action: field `field` is stamped with `time`. */
  datatype Stamping = Stamping(field: Field, time: Timestamp)

  /** The session after the stampings `ops` are applied to `s`, in order. */
  function StampAll(s: Session, ops: seq<Stamping>): Session
  {
    if ops == [] then s
    else Stamp(StampAll(s, ops[..|ops| - 1]), ops[|ops| - 1].field, ops[|ops| - 1].time)
  }

  /** Some stamping in `ops` targets field `f`. */
  predicate Stamped(ops: seq<Stamping>, f: Field)
  {
    exists i :: 0 <= i < |ops| && ops[i].field == f
  }

  /** The time of the last stamping of `f` in `ops`, if there is one. */
  function Latest(ops: seq<Stamping>, f: Field): (r: Option<Timestamp>)
    ensures r.Some? <==> Stamped(ops, f)
    ensures r.Some? ==> exists i :: 0 <= i < |ops| && ops[i] == Stamping(f, r.value)
                                    && forall j :: i < j < |ops| ==> ops[j].field != f
  {
    if ops == [] then None
    else
      var prefix, last := ops[..|ops| - 1], ops[|ops| - 1];
      var r := if last.field == f then Some(last.time) else Latest(prefix, f);
      assert ops == prefix + [last];
      assert Stamped(prefix, f) ==> Stamped(ops, f);
      assert Stamped(ops, f) && last.field != f ==> Stamped(prefix, f) by {
        if Stamped(ops, f) && last.field != f {
          var i :| 0 <= i < |ops| && ops[i].field == f;
          assert prefix[i].field == f;
        }
      }
      assert last.field != f && r.Some? ==>
          exists i :: 0 <= i < |ops| && ops[i] == Stamping(f, r.value)
                      && forall j :: i < j < |ops| ==> ops[j].field != f by {
        if last.field != f && r.Some? {
          var i :| 0 <= i < |prefix| && prefix[i] == Stamping(f, r.value)
                   && forall j :: i < j < |prefix| ==> prefix[j].field != f;
          assert ops[i] == Stamping(f, r.value);
        }
      }
      r
  }

  /** After any sequence of stampings, a field holds the time of its last
      stamping, or its original value when no stamping touched it: later
      stampings overwrite earlier ones and nothing else clears a field. */
  lemma {:induction false} StampAllGet(s: Session, ops: seq<Stamping>, f: Field)
    ensures Get(StampAll(s, ops), f) == if Stamped(ops, f) then Latest(ops, f) else Get(s, f)
  {
    if ops != [] {
      StampAllGet(s, ops[..|ops| - 1], f);
    }
  }

  /** Starting from a fresh session, the result is complete exactly when each
      of the four fields was stamped at least once, in whatever order and
      however often. */
  lemma {:induction false} CompleteIffAllStamped(ops: seq<Stamping>)
    ensures IsComplete(StampAll(Fresh(), ops)) <==> forall f :: Stamped(ops, f)
  {
    forall f ensures Get(StampAll(Fresh(), ops), f).Some? <==> Stamped(ops, f) {
      StampAllGet(Fresh(), ops, f);
    }
  }

  /** Stamping the study start twice before the study end: only the second
      start time enters the study duration. */
  lemma RestartedStudyUsesSecondStart(first: Timestamp, second: Timestamp, end: Timestamp)
    ensures StudyDuration(StampAll(Fresh(),
              [Stamping(StudyStart, first), Stamping(StudyStart, second), Stamping(StudyEnd, end)]))
            == Ok(Hours(second, end))
  {
    var ops := [Stamping(StudyStart, first), Stamping(StudyStart, second), Stamping(StudyEnd, end)];
    StampAllGet(Fresh(), ops, StudyStart);
    StampAllGet(Fresh(), ops, StudyEnd);
    assert Stamped(ops, StudyStart) && Stamped(ops, StudyEnd);
  }

  /** 5400 seconds of study are exactly one and a half hours. */
  lemma NinetyMinutesIsOneAndAHalfHours(t: Timestamp)
    ensures StudyDuration(Session(Some(t), Some(t + 5400), None, None)) == Ok(1.5)
  {
  }

  /** Study 09:00-11:00 and game 11:00-12:00 on one day: 2.0 - 2 * 1.0 = 0.0. */
  lemma MorningScenarioScoresZero(midnight: Timestamp)
    ensures var s := Session(Some(midnight + 9 * 3600), Some(midnight + 11 * 3600),
                             Some(midnight + 11 * 3600), Some(midnight + 12 * 3600));
            StudyDuration(s) == Ok(2.0) && GameDuration(s) == Ok(1.0) && WeightedScore(s) == Ok(0.0)
  {
  }
}
