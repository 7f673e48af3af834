/**
 * The typewriter that reveals the card's message one character per timer tick
 * (`TypewriterText` in src/components/Card.tsx).
 *
 * The pure part (`Progress`, `Ticked`, `Settled`, `Run`) is the specification;
 * the class `TypewriterText` holds the component's mutable state and has one
 * method per event, each tied to the pure step it performs.
 */
module Typewriter {

  /** Milliseconds between two revealed characters. */
  const TickDelay: nat := 50

  /**
   * The component's state: the cursor `index.current`, the text on screen
   * (`displayText`) and the `isComplete` flag.
   */
  datatype Progress = Progress(cursor: nat, shown: string, complete: bool)

  /** The state of a freshly mounted typewriter. */
  function Start(): Progress {
    Progress(0, [], false)
  }

  /**
   * The states the typewriter can reach while showing `text`: the screen holds
   * the prefix whose length is the cursor, the cursor never passes the end, and
   * completion is only ever recorded at the end.
   */
  predicate Valid(text: string, p: Progress) {
    p.cursor <= |text| && p.shown == text[..p.cursor] && (p.complete ==> p.cursor == |text|)
  }

  /**
   * One timer tick: show the prefix one character longer than the cursor, then
   * advance the cursor. The effect only schedules a tick while the cursor is
   * short of the end.
   */
  function Ticked(text: string, p: Progress): (q: Progress)
    requires p.cursor < |text|
    ensures q.cursor == p.cursor + 1 && q.complete == p.complete
    ensures Valid(text, p) ==> Valid(text, q) && q.shown == p.shown + [text[p.cursor]]
  {
    Progress(p.cursor + 1, text[..p.cursor + 1], p.complete)
  }

  /** What one run of the effect leaves behind, and whether it invoked `onComplete`. */
  datatype Settlement = Settlement(after: Progress, fired: bool)

  /**
   * One run of the effect that follows every render. Once the cursor has reached
   * the end it sets `isComplete` and invokes `onComplete`, but only if
   * `isComplete` was still false; short of the end it changes nothing (it
   * schedules the next tick).
   */
  function Settled(text: string, p: Progress): (r: Settlement)
    ensures r.fired <==> p.cursor >= |text| && !p.complete
    ensures r.after.complete <==> p.complete || p.cursor >= |text|
    ensures r.after.cursor == p.cursor && r.after.shown == p.shown
    ensures Valid(text, p) ==> Valid(text, r.after)
    ensures r.fired && Valid(text, p) ==> r.after.shown == text
  {
    if p.cursor >= |text| then
      if !p.complete then Settlement(p.(complete := true), true) else Settlement(p, false)
    else
      Settlement(p, false)
  }

  /** Running the effect again after it has settled invokes nothing and changes nothing. */
  lemma SettledIsIdempotent(text: string, p: Progress)
    ensures Settled(text, Settled(text, p).after) == Settlement(Settled(text, p).after, false)
  {
  }

  /** What follows the message on screen: the writing cue, or the signature line. */
  datatype Trailer = WritingCue | Signature

  /** The render condition for the trailer after the revealed text. */
  function TrailerOf(p: Progress): (t: Trailer)
    ensures t == WritingCue <==> !p.complete
    ensures t == Signature <==> p.complete
  {
    if p.complete then Signature else WritingCue
  }

  /** The signature only ever appears under the complete message. */
  lemma SignatureFollowsWholeMessage(text: string, p: Progress)
    requires Valid(text, p)
    ensures TrailerOf(p) == Signature ==> p.shown == text
  {
  }

  /** The events that move a typewriter: a timer tick, or a run of the effect. */
  datatype Event = Tick | Effect

  /**
   * A tick can only fire while the effect keeps one scheduled: in a valid
   * state, exactly when the effect does not settle.
   */
  predicate Enabled(text: string, p: Progress, e: Event)
    ensures e == Tick && Valid(text, p) ==> (Enabled(text, p, e) <==> !Settled(text, p).after.complete)
  {
    e == Tick ==> p.cursor < |text|
  }

  function Step(text: string, p: Progress, e: Event): Settlement
    requires Enabled(text, p, e)
  {
    match e
    case Tick => Settlement(Ticked(text, p), false)
    case Effect => Settled(text, p)
  }

  /** Every event of `evs`, in order, is enabled when it happens. */
  predicate Runnable(text: string, p: Progress, evs: seq<Event>)
    decreases |evs|
  {
    |evs| == 0 || (Enabled(text, p, evs[0]) && Runnable(text, Step(text, p, evs[0]).after, evs[1..]))
  }

  /** The final state of a run of events, and how often it invoked `onComplete`. */
  datatype Outcome = Outcome(final: Progress, fires: nat)

  function Run(text: string, p: Progress, evs: seq<Event>): Outcome
    requires Runnable(text, p, evs)
    decreases |evs|
  {
    if |evs| == 0 then Outcome(p, 0)
    else
      var r := Step(text, p, evs[0]);
      var rest := Run(text, r.after, evs[1..]);
      Outcome(rest.final, rest.fires + if r.fired then 1 else 0)
  }

  /**
   * Over any run, `onComplete` is invoked exactly once if the run completes the
   * typewriter, and never otherwise; the state stays valid throughout.
   */
  lemma {:induction false} RunFiresOnce(text: string, p: Progress, evs: seq<Event>)
    requires Valid(text, p) && Runnable(text, p, evs)
    ensures Valid(text, Run(text, p, evs).final)
    ensures p.complete ==> Run(text, p, evs).final.complete
    ensures Run(text, p, evs).fires == if Run(text, p, evs).final.complete && !p.complete then 1 else 0
    decreases |evs|
  {
    if |evs| > 0 {
      RunFiresOnce(text, Step(text, p, evs[0]).after, evs[1..]);
    }
  }

  /** From a fresh typewriter, `onComplete` is invoked at most once, and only once the whole text is shown. */
  lemma FiresAtMostOnceFromStart(text: string, evs: seq<Event>)
    requires Runnable(text, Start(), evs)
    ensures Run(text, Start(), evs).fires <= 1
    ensures Run(text, Start(), evs).fires == 1 <==> Run(text, Start(), evs).final.complete
    ensures Run(text, Start(), evs).fires == 1 ==> Run(text, Start(), evs).final.shown == text
  {
    RunFiresOnce(text, Start(), evs);
  }

  /** `n` ticks in a row. */
  function Ticks(n: nat): (evs: seq<Event>)
    ensures |evs| == n && forall i :: 0 <= i < n ==> evs[i] == Tick
  {
    if n == 0 then [] else [Tick] + Ticks(n - 1)
  }

  /** Ticks reveal the text one character each, from any point short of the end. */
  lemma {:induction false} TicksReveal(text: string, k: nat, m: nat)
    requires k + m <= |text|
    ensures Runnable(text, Progress(k, text[..k], false), Ticks(m))
    ensures Run(text, Progress(k, text[..k], false), Ticks(m)) == Outcome(Progress(k + m, text[..k + m], false), 0)
    decreases m
  {
    if m > 0 {
      assert Ticks(m)[1..] == Ticks(m - 1);
      TicksReveal(text, k + 1, m - 1);
    }
  }

  /** The whole cycle of a fresh typewriter: one tick per character, then the effect completes it. */
  lemma TypingThenEffectCompletes(text: string)
    ensures Runnable(text, Start(), Ticks(|text|) + [Effect])
    ensures Run(text, Start(), Ticks(|text|) + [Effect]) == Outcome(Progress(|text|, text, true), 1)
  {
    TicksReveal(text, 0, |text|);
    RunAppend(text, Start(), Ticks(|text|), [Effect]);
  }

  /** A run of `a + b` is a run of `a` followed by a run of `b`. */
  lemma {:induction false} RunAppend(text: string, p: Progress, a: seq<Event>, b: seq<Event>)
    requires Runnable(text, p, a) && Runnable(text, Run(text, p, a).final, b)
    ensures Runnable(text, p, a + b)
    ensures Run(text, p, a + b).final == Run(text, Run(text, p, a).final, b).final
    ensures Run(text, p, a + b).fires == Run(text, p, a).fires + Run(text, Run(text, p, a).final, b).fires
    decreases |a|
  {
    if |a| > 0 {
      assert (a + b)[1..] == a[1..] + b;
      RunAppend(text, Step(text, p, a[0]).after, a[1..], b);
    } else {
      assert a + b == b;
    }
  }

  /**
   * The component's mutable state: `index.current`, `displayText` and
   * `isComplete`, for a fixed `text`.
   */
  class TypewriterText {
    const text: string
    var index: nat
    var displayText: string
    var isComplete: bool

    function Current(): Progress
      reads this
    {
      Progress(index, displayText, isComplete)
    }

    /** Mounting: nothing shown, cursor at 0, not complete. */
    constructor (text: string)
      ensures this.text == text && Current() == Start()
    {
      this.text := text;
      index := 0;
      displayText := [];
      isComplete := false;
    }

    /** The scheduled timer fires: show one more character and advance the cursor. */
    method Tick()
      requires index < |text|
      modifies this
      ensures Current() == Ticked(text, old(Current()))
      ensures Valid(text, old(Current())) ==> Valid(text, Current())
    {
      displayText := text[..index + 1];
      index := index + 1;
    }

    /** The effect runs; `fired` tells whether it invoked `onComplete`. */
    method Settle() returns (fired: bool)
      modifies this
      ensures Settlement(Current(), fired) == Settled(text, old(Current()))
      ensures Valid(text, old(Current())) ==> Valid(text, Current())
    {
      fired := false;
      if index >= |text| {
        if !isComplete {
          isComplete := true;
          fired := true;
        }
      }
    }
  }
}
