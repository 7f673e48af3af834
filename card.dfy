/**
 * The card's phase controller (`BirthdayCard` in src/components/Card.tsx).
 *
 * Each timer callback and each effect of the component is an event. A pending
 * timer is a flag: an effect that depends on a flag schedules its timer when the
 * flag turns true and cancels it (its cleanup) when the flag turns false. The
 * pure part (`CardState`, `Enabled`, `Step`) is the specification; the class
 * `BirthdayCard` holds the component's fields and has one method per event.
 */
module Card {
  import Typewriter

  /** Delay of the first opening after mount. */
  const MountOpenDelay: nat := 3000
  /** Delay from typing completion to the mail flight. */
  const MailDelay: nat := 1000
  /** Delay from the mail flight to the return. */
  const ReturnDelay: nat := 3000
  /** Delay from the return to the reset. */
  const ResetDelay: nat := 1500
  /** Delay from the reset to the next opening. */
  const ReopenDelay: nat := 1000

  /** The message the typewriter reveals. */
  const Message: string := "Wishing you a truly blessed and joyful birthday! May this special day remind you of how wonderfully God has created you and how deeply you are loved. I pray that the year ahead is filled with His guidance, abundant blessings, and countless reasons to smile.\n\nMay His grace continue to shine through you, touching the lives of everyone around you. Have a fantastic day filled with laughter, love, and the warmth of His presence."

  /** The animation preset the card is driven to. */
  datatype CardVariant = Closed | Open | Mail | Returning

  /** The priority rule that turns the flags into the displayed variant. */
  function Variant(isMail: bool, isReturning: bool, isOpen: bool): (v: CardVariant)
    ensures v == Mail <==> isMail
    ensures v == Returning <==> !isMail && isReturning
    ensures v == Open <==> !isMail && !isReturning && isOpen
    ensures v == Closed <==> !isMail && !isReturning && !isOpen
  {
    if isMail then Mail else if isReturning then Returning else if isOpen then Open else Closed
  }

  /** The order of the animation cycle. */
  function Next(v: CardVariant): CardVariant {
    match v
    case Closed => Open
    case Open => Mail
    case Mail => Returning
    case Returning => Closed
  }

  /**
   * Everything the component's behaviour depends on: the four phase flags, the
   * audio flag and whether the audio handle exists, whether the mount effect
   * has run, the pending timers (with the delay of the pending open timer) and
   * the typewriter's progress.
   */
  datatype CardState = CardState(
    isOpen: bool, isMail: bool, isTypingComplete: bool, isReturning: bool,
    isPlaying: bool, hasAudio: bool, mounted: bool,
    openTimer: bool, openDelay: nat, mailTimer: bool, returnTimer: bool, resetTimer: bool,
    writer: Typewriter.Progress)

  /** The first render, before any effect has run. */
  function Initial(): CardState {
    CardState(false, false, false, false, false, false, false,
              false, 0, false, false, false, Typewriter.Start())
  }

  function Phase(s: CardState): CardVariant {
    Variant(s.isMail, s.isReturning, s.isOpen)
  }

  /** What the message area shows: the plain message, or the typewriter. */
  datatype MessageView = FullMessage(text: string) | Typing(shown: string, trailer: Typewriter.Trailer)

  /** The render condition of the message area. */
  function View(msg: string, s: CardState): (r: MessageView)
    ensures r.FullMessage? <==> s.isReturning
    ensures r.FullMessage? ==> r.text == msg
    ensures r.Typing? ==> r.shown == s.writer.shown && r.trailer == Typewriter.TrailerOf(s.writer)
  {
    if s.isReturning then FullMessage(msg) else Typing(s.writer.shown, Typewriter.TrailerOf(s.writer))
  }

  /** The events: the mount effect, each timer callback, the typewriter's events and the audio button. */
  datatype Event =
    | Mount | OpenFires | TypewriterTick | TypewriterSettle
    | MailFires | ReturnFires | ResetFires | ToggleAudio

  /**
   * When each event can happen. A timer callback needs its timer pending; the
   * typewriter's events need the typewriter mounted, which it is while the card
   * is not returning. A typewriter tick comes at least `TickDelay` after the
   * previous one, counted from the moment a pending open timer was set, so
   * while that timer (of delay `openDelay`) has not fired, at most
   * `openDelay / TickDelay` characters can be revealed.
   */
  predicate Enabled(msg: string, s: CardState, e: Event)
    ensures Inv(msg, s) && Enabled(msg, s, e) ==>
      (e == MailFires ==> s.isTypingComplete) &&
      (e == ReturnFires ==> s.isMail) &&
      (e == ResetFires ==> s.isReturning) &&
      (e == TypewriterTick ==> !s.writer.complete && !s.isTypingComplete)
  {
    match e
    case Mount => !s.mounted
    case OpenFires => s.openTimer
    case TypewriterTick =>
      s.mounted && !s.isReturning && s.writer.cursor < |msg| &&
      (s.openTimer ==> (s.writer.cursor + 1) * Typewriter.TickDelay <= s.openDelay)
    case TypewriterSettle => s.mounted && !s.isReturning
    case MailFires => s.mailTimer
    case ReturnFires => s.returnTimer
    case ResetFires => s.resetTimer
    case ToggleAudio => true
  }

  /** A timer owned by an effect on one flag: scheduled when the flag turns true, cancelled when it turns false. */
  function Rescheduled(pending: bool, was: bool, now: bool): (r: bool)
    ensures !was && now ==> r
    ensures was && !now ==> !r
    ensures was == now ==> r == pending
  {
    if was == now then pending else now
  }

  /**
   * The commit after a callback changed `s` into `t`: the effects whose flag
   * changed are re-run, and the typewriter is mounted afresh when the card
   * stops returning.
   */
  function Commit(s: CardState, t: CardState): (r: CardState)
    ensures r.(mailTimer := t.mailTimer, returnTimer := t.returnTimer,
               resetTimer := t.resetTimer, writer := t.writer) == t
    ensures !s.isTypingComplete && t.isTypingComplete ==> r.mailTimer
    ensures s.isTypingComplete && !t.isTypingComplete ==> !r.mailTimer
    ensures !s.isMail && t.isMail ==> r.returnTimer
    ensures s.isMail && !t.isMail ==> !r.returnTimer
    ensures !s.isReturning && t.isReturning ==> r.resetTimer
    ensures s.isReturning && !t.isReturning ==> !r.resetTimer && r.writer == Typewriter.Start()
    ensures !(s.isReturning && !t.isReturning) ==> r.writer == t.writer
  {
    t.(mailTimer := Rescheduled(t.mailTimer, s.isTypingComplete, t.isTypingComplete),
       returnTimer := Rescheduled(t.returnTimer, s.isMail, t.isMail),
       resetTimer := Rescheduled(t.resetTimer, s.isReturning, t.isReturning),
       writer := if s.isReturning && !t.isReturning then Typewriter.Start() else t.writer)
  }

  /** What the callback of each event writes, before the commit. */
  function Fire(msg: string, s: CardState, e: Event): (r: CardState)
    requires Enabled(msg, s, e)
    ensures e != ToggleAudio ==> r.isPlaying == s.isPlaying
    ensures e == ToggleAudio ==> r.isPlaying == (s.isPlaying != s.hasAudio)
    ensures r.hasAudio == (s.hasAudio || e == Mount)
    ensures !Advances(e) && e != TypewriterSettle ==>
      r.isOpen == s.isOpen && r.isMail == s.isMail &&
      r.isTypingComplete == s.isTypingComplete && r.isReturning == s.isReturning
    ensures e == TypewriterSettle ==>
      r.isOpen == s.isOpen && r.isMail == s.isMail && r.isReturning == s.isReturning &&
      (r.isTypingComplete <==> s.isTypingComplete || Typewriter.Settled(msg, s.writer).fired)
    ensures e != TypewriterTick && e != TypewriterSettle ==> r.writer == s.writer
  {
    match e
    case Mount => s.(mounted := true, hasAudio := true, openTimer := true, openDelay := MountOpenDelay)
    case OpenFires => s.(isOpen := true, openTimer := false)
    case TypewriterTick => s.(writer := Typewriter.Ticked(msg, s.writer))
    case TypewriterSettle =>
      var r := Typewriter.Settled(msg, s.writer);
      s.(writer := r.after, isTypingComplete := if r.fired then true else s.isTypingComplete)
    case MailFires => s.(mailTimer := false, isMail := true)
    case ReturnFires => s.(returnTimer := false, isReturning := true, isMail := false)
    case ResetFires =>
      s.(resetTimer := false, isTypingComplete := false, isMail := false, isOpen := false,
         isReturning := false, openTimer := true, openDelay := ReopenDelay)
    case ToggleAudio => if s.hasAudio then s.(isPlaying := !s.isPlaying) else s
  }

  function Step(msg: string, s: CardState, e: Event): CardState
    requires Enabled(msg, s, e)
  {
    Commit(s, Fire(msg, s, e))
  }

  /** The only events that move the card's phase. */
  predicate Advances(e: Event) {
    e == OpenFires || e == MailFires || e == ReturnFires || e == ResetFires
  }

  /**
   * The reachable states. Before the mount effect nothing is pending; after
   * it, the card is in exactly one of four stages, each with exactly its own
   * timers pending: waiting to open (only the open timer), open (the mail timer
   * once typing is complete), mailing (the return timer) and returning (the
   * reset timer).
   */
  predicate Inv(msg: string, s: CardState) {
    LongMessage(msg) &&
    Typewriter.Valid(msg, s.writer) &&
    s.isTypingComplete == s.writer.complete &&
    (!s.mounted ==> s == Initial()) &&
    (s.mounted ==> s.hasAudio) &&
    (s.mounted ==>
      (Waiting(s) && !Opened(s) && !Mailing(s) && !Returned(s)) ||
      (!Waiting(s) && Opened(s) && !Mailing(s) && !Returned(s)) ||
      (!Waiting(s) && !Opened(s) && Mailing(s) && !Returned(s)) ||
      (!Waiting(s) && !Opened(s) && !Mailing(s) && Returned(s)))
  }

  predicate Waiting(s: CardState) {
    s.openTimer && (s.openDelay == MountOpenDelay || s.openDelay == ReopenDelay) &&
    s.writer.cursor * Typewriter.TickDelay <= s.openDelay &&
    !s.isOpen && !s.isMail && !s.isReturning && !s.mailTimer && !s.returnTimer && !s.resetTimer
  }

  predicate Opened(s: CardState) {
    !s.openTimer && s.isOpen && !s.isMail && !s.isReturning &&
    s.mailTimer == s.isTypingComplete && !s.returnTimer && !s.resetTimer
  }

  predicate Mailing(s: CardState) {
    !s.openTimer && s.isOpen && s.isMail && !s.isReturning && s.isTypingComplete &&
    !s.mailTimer && s.returnTimer && !s.resetTimer
  }

  predicate Returned(s: CardState) {
    !s.openTimer && s.isOpen && !s.isMail && s.isReturning && s.isTypingComplete &&
    !s.mailTimer && !s.returnTimer && s.resetTimer
  }

  /**
   * A message the typewriter cannot finish before the first opening; the card's
   * message is one (`MessageOutlastsOpenDelay`).
   */
  predicate LongMessage(msg: string) {
    |msg| * Typewriter.TickDelay > MountOpenDelay
  }

  lemma MessageOutlastsOpenDelay()
    ensures LongMessage(Message) && |Message| == 427
  {
  }

  /** The first render is a reachable state, shown closed. */
  lemma InitialIsValid(msg: string)
    requires LongMessage(msg)
    ensures Inv(msg, Initial()) && Phase(Initial()) == Closed
  {
  }

  /** While the open timer is pending the typewriter is short of the end, hence not complete. */
  lemma WaitingIsTyping(msg: string, s: CardState)
    requires Inv(msg, s) && Waiting(s)
    ensures s.writer.cursor < |msg| && !s.writer.complete && !s.isTypingComplete
  {
    assert s.writer.cursor * Typewriter.TickDelay <= MountOpenDelay;
  }

  /** Every enabled event keeps the state reachable. */
  lemma StepKeepsInv(msg: string, s: CardState, e: Event)
    requires Inv(msg, s) && Enabled(msg, s, e)
    ensures Inv(msg, Step(msg, s, e))
  {
    if s.mounted && Waiting(s) {
      WaitingIsTyping(msg, s);
    }
  }

  /**
   * Each event either leaves the displayed variant alone or moves it one
   * place along Closed, Open, Mail, Returning, Closed; exactly the four timer
   * callbacks move it.
   */
  lemma StepFollowsCycle(msg: string, s: CardState, e: Event)
    requires Inv(msg, s) && Enabled(msg, s, e)
    ensures Phase(Step(msg, s, e)) == if Advances(e) then Next(Phase(s)) else Phase(s)
  {
    if s.mounted && Waiting(s) {
      WaitingIsTyping(msg, s);
    }
  }

  /** The open timer fires while the card is closed and opens it. */
  lemma OpenFiresOpens(msg: string, s: CardState)
    requires Inv(msg, s) && Enabled(msg, s, OpenFires)
    ensures Phase(s) == Closed && Phase(Step(msg, s, OpenFires)) == Open
    ensures Step(msg, s, OpenFires).isOpen
    ensures Step(msg, s, OpenFires).isMail == s.isMail && Step(msg, s, OpenFires).isReturning == s.isReturning
    ensures Step(msg, s, OpenFires).isTypingComplete == s.isTypingComplete
  {
  }

  /** The mail timer can only fire once typing is complete, and it sets `isMail`. */
  lemma MailFiresAfterTyping(msg: string, s: CardState)
    requires Inv(msg, s) && Enabled(msg, s, MailFires)
    ensures s.isTypingComplete && s.isOpen && !s.isMail
    ensures Step(msg, s, MailFires).isMail && Phase(Step(msg, s, MailFires)) == Mail
  {
  }

  /** The return timer can only fire while mailing; it sets `isReturning` and clears `isMail`. */
  lemma ReturnFiresAfterMail(msg: string, s: CardState)
    requires Inv(msg, s) && Enabled(msg, s, ReturnFires)
    ensures s.isMail
    ensures Step(msg, s, ReturnFires).isReturning && !Step(msg, s, ReturnFires).isMail
    ensures Phase(Step(msg, s, ReturnFires)) == Returning
  {
  }

  /**
   * The reset timer can only fire while returning. It clears the four phase
   * flags, leaves the audio flag alone, schedules the next opening and mounts
   * a fresh typewriter.
   */
  lemma ResetClearsPhase(msg: string, s: CardState)
    requires Inv(msg, s) && Enabled(msg, s, ResetFires)
    ensures s.isReturning
    ensures var t := Step(msg, s, ResetFires);
      !t.isOpen && !t.isMail && !t.isTypingComplete && !t.isReturning &&
      t.isPlaying == s.isPlaying && t.hasAudio == s.hasAudio &&
      t.openTimer && t.writer == Typewriter.Start()
  {
  }

  /** The opening after a reset sets only `isOpen` among the phase flags. */
  lemma ReopenSetsOnlyOpen(msg: string, s: CardState)
    requires Inv(msg, s) && Enabled(msg, s, ResetFires)
    ensures var t := Step(msg, s, ResetFires);
      Enabled(msg, t, OpenFires) &&
      var u := Step(msg, t, OpenFires);
      u.isOpen && !u.isMail && !u.isTypingComplete && !u.isReturning && u.isPlaying == s.isPlaying
  {
  }

  /** While returning the full message is shown instead of the typewriter. */
  lemma ReturningShowsMessage(msg: string, s: CardState)
    requires Inv(msg, s) && Phase(s) == Returning
    ensures View(msg, s) == FullMessage(msg)
    ensures Enabled(msg, s, ResetFires)
    ensures View(msg, Step(msg, s, ResetFires)) == Typing([], Typewriter.WritingCue)
  {
  }

  /**
   * `onComplete` only fires while the card is open, with the whole message
   * typed and typing not yet recorded as complete; it starts the mail timer.
   */
  lemma CompletionOnlyWhileOpen(msg: string, s: CardState)
    requires Inv(msg, s) && Enabled(msg, s, TypewriterSettle)
    requires Typewriter.Settled(msg, s.writer).fired
    ensures Phase(s) == Open && !s.isTypingComplete && s.writer.shown == msg
    ensures Step(msg, s, TypewriterSettle).isTypingComplete && Step(msg, s, TypewriterSettle).mailTimer
  {
    if Waiting(s) {
      WaitingIsTyping(msg, s);
    }
  }

  /** A commit in which no effect dependency changed re-runs nothing. */
  lemma CommitWithoutChange(s: CardState, t: CardState)
    requires t.isTypingComplete == s.isTypingComplete && t.isMail == s.isMail
    requires t.isReturning == s.isReturning
    ensures Commit(s, t) == t
  {
  }

  /** The audio button flips `isPlaying` when the audio handle exists and does nothing otherwise. */
  lemma ToggleFlipsPlaying(msg: string, s: CardState)
    ensures Step(msg, s, ToggleAudio).isPlaying == (if s.hasAudio then !s.isPlaying else s.isPlaying)
    ensures Step(msg, s, ToggleAudio) == s.(isPlaying := Step(msg, s, ToggleAudio).isPlaying)
  {
    CommitWithoutChange(s, Fire(msg, s, ToggleAudio));
  }

  /** Two presses of the audio button restore the state. */
  lemma ToggleTwiceRestores(msg: string, s: CardState)
    ensures Step(msg, Step(msg, s, ToggleAudio), ToggleAudio) == s
  {
    ToggleFlipsPlaying(msg, s);
    ToggleFlipsPlaying(msg, Step(msg, s, ToggleAudio));
  }

  /** No event but the audio button touches `isPlaying`. */
  lemma OnlyToggleChangesAudio(msg: string, s: CardState, e: Event)
    requires Enabled(msg, s, e) && e != ToggleAudio
    ensures Step(msg, s, e).isPlaying == s.isPlaying
  {
    assert Fire(msg, s, e).isPlaying == s.isPlaying;
  }

  /** Every event of `evs`, in order, is enabled when it happens. */
  predicate Runnable(msg: string, s: CardState, evs: seq<Event>)
    decreases |evs|
  {
    |evs| == 0 || (Enabled(msg, s, evs[0]) && Runnable(msg, Step(msg, s, evs[0]), evs[1..]))
  }

  function Run(msg: string, s: CardState, evs: seq<Event>): CardState
    requires Runnable(msg, s, evs)
    decreases |evs|
  {
    if |evs| == 0 then s else Run(msg, Step(msg, s, evs[0]), evs[1..])
  }

  /** The variants displayed along a run, starting with the current one. */
  function Phases(msg: string, s: CardState, evs: seq<Event>): (ph: seq<CardVariant>)
    requires Runnable(msg, s, evs)
    ensures |ph| == |evs| + 1 && ph[0] == Phase(s)
    decreases |evs|
  {
    [Phase(s)] + if |evs| == 0 then [] else Phases(msg, Step(msg, s, evs[0]), evs[1..])
  }

  /** Every run from a reachable state ends in a reachable state. */
  lemma {:induction false} RunKeepsInv(msg: string, s: CardState, evs: seq<Event>)
    requires Inv(msg, s) && Runnable(msg, s, evs)
    ensures Inv(msg, Run(msg, s, evs))
    decreases |evs|
  {
    if |evs| > 0 {
      StepKeepsInv(msg, s, evs[0]);
      RunKeepsInv(msg, Step(msg, s, evs[0]), evs[1..]);
    }
  }

  /**
   * Along any run from a reachable state the displayed variant never skips or
   * reverses a phase: each next variant is the same or the next in the cycle.
   */
  lemma {:induction false} RunFollowsCycle(msg: string, s: CardState, evs: seq<Event>)
    requires Inv(msg, s) && Runnable(msg, s, evs)
    ensures forall i :: 0 <= i < |evs| ==>
      var ph := Phases(msg, s, evs); ph[i + 1] == ph[i] || ph[i + 1] == Next(ph[i])
    decreases |evs|
  {
    if |evs| > 0 {
      var t := Step(msg, s, evs[0]);
      StepKeepsInv(msg, s, evs[0]);
      StepFollowsCycle(msg, s, evs[0]);
      RunFollowsCycle(msg, t, evs[1..]);
      var ph := Phases(msg, s, evs);
      assert ph == [Phase(s)] + Phases(msg, t, evs[1..]);
      forall i | 0 <= i < |evs|
        ensures ph[i + 1] == ph[i] || ph[i + 1] == Next(ph[i])
      {
        if i > 0 {
          assert ph[i] == Phases(msg, t, evs[1..])[i - 1];
        }
      }
    }
  }

  /** A run of `a + b` is a run of `a` followed by a run of `b`. */
  lemma {:induction false} RunAppend(msg: string, s: CardState, a: seq<Event>, b: seq<Event>)
    requires Runnable(msg, s, a) && Runnable(msg, Run(msg, s, a), b)
    ensures Runnable(msg, s, a + b) && Run(msg, s, a + b) == Run(msg, Run(msg, s, a), b)
    decreases |a|
  {
    if |a| > 0 {
      assert (a + b)[1..] == a[1..] + b;
      RunAppend(msg, Step(msg, s, a[0]), a[1..], b);
    } else {
      assert a + b == b;
    }
  }

  /** `n` typewriter ticks in a row. */
  function Ticks(n: nat): (evs: seq<Event>)
    ensures |evs| == n && forall i :: 0 <= i < n ==> evs[i] == TypewriterTick
  {
    if n == 0 then [] else [TypewriterTick] + Ticks(n - 1)
  }

  /** Once the card is open, ticks reveal the message one character each and change nothing else. */
  lemma {:induction false} OpenCardTypes(msg: string, s: CardState, k: nat, m: nat)
    requires Inv(msg, s) && s.mounted && Opened(s)
    requires k + m <= |msg| && s.writer == Typewriter.Progress(k, msg[..k], false)
    ensures Runnable(msg, s, Ticks(m))
    ensures Run(msg, s, Ticks(m)) == s.(writer := Typewriter.Progress(k + m, msg[..k + m], false))
    decreases m
  {
    if m > 0 {
      var t := Step(msg, s, TypewriterTick);
      assert t == s.(writer := Typewriter.Progress(k + 1, msg[..k + 1], false));
      StepKeepsInv(msg, s, TypewriterTick);
      assert Ticks(m)[1..] == Ticks(m - 1);
      OpenCardTypes(msg, t, k + 1, m - 1);
    }
  }

  /**
   * The source's timeline for one cycle: mount, open, one tick per character,
   * the effect that completes typing, mail, return, reset, open again.
   */
  function Cycle(msg: string): seq<Event> {
    [Mount, OpenFires] + Ticks(|msg|) + [TypewriterSettle, MailFires, ReturnFires, ResetFires, OpenFires]
  }

  /**
   * The cycle can run from the first render, and it ends open again with a fresh
   * typewriter, typing not complete and the audio flag untouched: the state just
   * after the first opening, except that the last open timer was a reopening.
   */
  lemma CycleReturnsToOpen(msg: string)
    requires LongMessage(msg)
    ensures Runnable(msg, Initial(), Cycle(msg))
    ensures Run(msg, Initial(), Cycle(msg)) ==
      Initial().(mounted := true, hasAudio := true, isOpen := true, openDelay := ReopenDelay)
    ensures Phase(Run(msg, Initial(), Cycle(msg))) == Open
  {
    var s0 := Initial();
    var s2 := Run(msg, s0, [Mount, OpenFires]);
    assert s2 == Initial().(mounted := true, hasAudio := true, isOpen := true, openDelay := MountOpenDelay);
    assert msg[..0] == [];
    OpenCardTypes(msg, s2, 0, |msg|);
    assert msg[..|msg|] == msg;
    var s3 := Run(msg, s2, Ticks(|msg|));
    RunAppend(msg, s0, [Mount, OpenFires], Ticks(|msg|));
    var tail := [TypewriterSettle, MailFires, ReturnFires, ResetFires, OpenFires];
    var s4 := Step(msg, s3, TypewriterSettle);
    var s5 := Step(msg, s4, MailFires);
    var s6 := Step(msg, s5, ReturnFires);
    var s7 := Step(msg, s6, ResetFires);
    var s8 := Step(msg, s7, OpenFires);
    assert Run(msg, s3, tail) == s8 by {
      assert tail[1..] == [MailFires, ReturnFires, ResetFires, OpenFires];
      assert tail[1..][1..] == [ReturnFires, ResetFires, OpenFires];
      assert tail[1..][1..][1..] == [ResetFires, OpenFires];
      assert tail[1..][1..][1..][1..] == [OpenFires];
    }
    RunAppend(msg, s0, [Mount, OpenFires] + Ticks(|msg|), tail);
    assert Cycle(msg) == [Mount, OpenFires] + Ticks(|msg|) + tail;
  }

  /**
   * The component: its five state flags, the audio handle's presence, the
   * pending timers and the mounted typewriter.
   */
  class BirthdayCard {
    /** The message the card's typewriter reveals. */
    const message: string
    var isOpen: bool
    var isMail: bool
    var isTypingComplete: bool
    var isReturning: bool
    var isPlaying: bool
    var hasAudio: bool
    var mounted: bool
    var openTimer: bool
    var openDelay: nat
    var mailTimer: bool
    var returnTimer: bool
    var resetTimer: bool
    var writer: Typewriter.TypewriterText

    function State(): CardState
      reads this, writer
    {
      CardState(isOpen, isMail, isTypingComplete, isReturning, isPlaying, hasAudio, mounted,
                openTimer, openDelay, mailTimer, returnTimer, resetTimer, writer.Current())
    }

    ghost predicate Valid()
      reads this, writer
    {
      writer.text == message && Inv(message, State())
    }

    /** The first render: all flags false, no audio handle yet, nothing scheduled. */
    constructor ()
      ensures Valid() && message == Message && State() == Initial() && fresh(writer)
    {
      MessageOutlastsOpenDelay();
      message := Message;
      isOpen, isMail, isTypingComplete, isReturning, isPlaying := false, false, false, false, false;
      hasAudio, mounted := false, false;
      openTimer, openDelay, mailTimer, returnTimer, resetTimer := false, 0, false, false, false;
      writer := new Typewriter.TypewriterText(Message);
    }

    /** The mount effect: create the audio handle and schedule the first opening. */
    method Mount()
      requires Valid() && Enabled(message, State(), Event.Mount)
      modifies this
      ensures Valid() && writer == old(writer)
      ensures State() == Step(message, old(State()), Event.Mount)
    {
      mounted, hasAudio := true, true;
      openTimer, openDelay := true, MountOpenDelay;
    }

    /** The open timer fires. */
    method OpenFires()
      requires Valid() && Enabled(message, State(), Event.OpenFires)
      modifies this
      ensures Valid() && writer == old(writer)
      ensures State() == Step(message, old(State()), Event.OpenFires)
    {
      isOpen, openTimer := true, false;
    }

    /** The typewriter's tick timer fires. */
    method TypewriterTick()
      requires Valid() && Enabled(message, State(), Event.TypewriterTick)
      modifies this, writer
      ensures Valid() && writer == old(writer)
      ensures State() == Step(message, old(State()), Event.TypewriterTick)
    {
      writer.Tick();
    }

    /** The typewriter's effect runs; if it invokes `onComplete`, typing is recorded complete and the mail timer is set. */
    method TypewriterSettle()
      requires Valid() && Enabled(message, State(), Event.TypewriterSettle)
      modifies this, writer
      ensures Valid() && writer == old(writer)
      ensures State() == Step(message, old(State()), Event.TypewriterSettle)
    {
      var fired := writer.Settle();
      if fired {
        isTypingComplete := true;
        mailTimer := true;
      }
    }

    /** The mail timer fires: the card flies off, and the return timer is set. */
    method MailFires()
      requires Valid() && Enabled(message, State(), Event.MailFires)
      modifies this
      ensures Valid() && writer == old(writer)
      ensures State() == Step(message, old(State()), Event.MailFires)
    {
      mailTimer := false;
      isMail := true;
      returnTimer := true;
    }

    /** The return timer fires: the card comes back, and the reset timer is set. */
    method ReturnFires()
      requires Valid() && Enabled(message, State(), Event.ReturnFires)
      modifies this
      ensures Valid() && writer == old(writer)
      ensures State() == Step(message, old(State()), Event.ReturnFires)
    {
      returnTimer := false;
      isReturning, isMail := true, false;
      resetTimer := true;
    }

    /** The reset timer fires: `resetCard`, the next opening is scheduled, and the typewriter is mounted again. */
    method ResetFires()
      requires Valid() && Enabled(message, State(), Event.ResetFires)
      modifies this
      ensures Valid() && fresh(writer)
      ensures State() == Step(message, old(State()), Event.ResetFires)
    {
      ghost var t := Step(message, State(), Event.ResetFires);
      StepKeepsInv(message, State(), Event.ResetFires);
      resetTimer := false;
      isTypingComplete, isMail, isOpen, isReturning := false, false, false, false;
      openTimer, openDelay := true, ReopenDelay;
      writer := new Typewriter.TypewriterText(message);
      assert State() == t;
      assert Inv(message, t);
      assert writer.text == message;
    }

    /** The audio button. */
    method ToggleAudio()
      requires Valid()
      modifies this
      ensures Valid() && writer == old(writer)
      ensures State() == Step(message, old(State()), Event.ToggleAudio)
    {
      if hasAudio {
        isPlaying := !isPlaying;
      }
    }
  }
}
