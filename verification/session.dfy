/**
 * Whole sessions: the widget's state and the payloads it has sent after a
 * sequence of events, and what the first-write-wins adoption rule and the
 * one-payload-per-user-action rule mean over such sequences.
 */
module Session {
  import opened Options
  import opened Payloads
  import opened Widget

  /** The state reached and the payloads sent, oldest first. */
  datatype Trace = Trace(state: State, sent: seq<Payload>)

  predicate IsUserAction(e: Event) {
    e.Pick? || e.Clear?
  }

  /** A host-data push that carries data (the effect's `fieldData` is truthy). */
  predicate IsSeed(e: Event) {
    e.HostData? && e.fieldData.Some?
  }

  /** The number of picks and clears in `es`. */
  function UserActions(es: seq<Event>): nat
    decreases |es|
  {
    if es == [] then 0
    else UserActions(es[..|es| - 1]) + (if IsUserAction(es[|es| - 1]) then 1 else 0)
  }

  /** Feeds the events to the widget one after another, collecting what it sends. */
  function Run(s: State, es: seq<Event>): (t: Trace)
    ensures |t.sent| == UserActions(es)
    ensures s.initialized ==> t.state.initialized
    decreases |es|
  {
    if es == [] then Trace(s, [])
    else
      var before := Run(s, es[..|es| - 1]);
      var o := Step(before.state, es[|es| - 1]);
      Trace(o.state, before.sent + (if o.sent.Some? then [o.sent.value] else []))
  }

  /** The payload an event sends, which depends on the event alone. */
  function PayloadOf(e: Event): Option<Payload> {
    match e
    case HostData(_) => None
    case Pick(id, native, unified, name) => Some(PickPayload(EmojiData(id, native, unified, name)))
    case Clear => Some(ClearPayload)
  }

  /** The payloads of the events in order, whatever state they meet. */
  function Emitted(es: seq<Event>): seq<Payload>
    decreases |es|
  {
    if es == [] then []
    else
      var p := PayloadOf(es[|es| - 1]);
      Emitted(es[..|es| - 1]) + (if p.Some? then [p.value] else [])
  }

  /** What is sent never depends on the state: each pick or clear sends its own payload, in order. */
  lemma {:induction false} SentIsEmitted(s: State, es: seq<Event>)
    ensures Run(s, es).sent == Emitted(es)
    decreases |es|
  {
    if es != [] {
      SentIsEmitted(s, es[..|es| - 1]);
    }
  }

  /** Some host-data push in `es` carries data. */
  predicate SeedArrived(es: seq<Event>) {
    exists i :: 0 <= i < |es| && IsSeed(es[i])
  }

  /** A seed arrived in `es` iff one arrived before its last event or the last event is one. */
  lemma SeedArrivedPrefix(es: seq<Event>)
    requires es != []
    ensures SeedArrived(es) <==> SeedArrived(es[..|es| - 1]) || IsSeed(es[|es| - 1])
  {
  }

  /** The flag is set exactly when it was set already or some host-data push carried data; picks never set it. */
  lemma {:induction false} InitializedIffSeeded(s: State, es: seq<Event>)
    ensures Run(s, es).state.initialized <==> s.initialized || SeedArrived(es)
    decreases |es|
  {
    if es != [] {
      InitializedIffSeeded(s, es[..|es| - 1]);
      SeedArrivedPrefix(es);
    }
  }

  /** Once the flag is set, host-data pushes change nothing and send nothing, whatever they carry. */
  lemma {:induction false} HostDataIgnoredOnceInitialized(s: State, es: seq<Event>)
    requires s.initialized
    requires forall i :: 0 <= i < |es| ==> es[i].HostData?
    ensures Run(s, es) == Trace(s, [])
    decreases |es|
  {
    if es != [] {
      HostDataIgnoredOnceInitialized(s, es[..|es| - 1]);
    }
  }

  /** The selection an event writes when it takes effect. */
  function Written(e: Event): Option<EmojiData> {
    match e
    case HostData(fieldData) => fieldData
    case Pick(id, native, unified, name) => Some(EmojiData(id, native, unified, name))
    case Clear => None
  }

  /**
   * Event `j` writes the selection: every pick and clear does, and so does the
   * first data-carrying host push when the session started uninitialised.
   */
  predicate IsWrite(s: State, es: seq<Event>, j: int)
    requires 0 <= j < |es|
  {
    IsUserAction(es[j]) || (IsSeed(es[j]) && !s.initialized && !SeedArrived(es[..j]))
  }

  /** Whether an earlier event writes does not depend on the events after it. */
  lemma IsWritePrefix(s: State, es: seq<Event>, k: int)
    requires 0 <= k < |es| - 1
    ensures IsWrite(s, es[..|es| - 1], k) <==> IsWrite(s, es, k)
  {
    var p := es[..|es| - 1];
    assert p[k] == es[k];
    assert p[..k] == es[..k];
  }

  /** The selection is whatever the last write wrote. */
  lemma {:induction false} SelectionIsLastWrite(s: State, es: seq<Event>, j: int)
    requires 0 <= j < |es| && IsWrite(s, es, j)
    requires forall k :: j < k < |es| ==> !IsWrite(s, es, k)
    ensures Run(s, es).state.selected == Written(es[j])
    decreases |es|
  {
    var p := es[..|es| - 1];
    var e := es[|es| - 1];
    InitializedIffSeeded(s, p);
    if j == |es| - 1 {
      assert p == es[..j];
    } else {
      assert !IsWrite(s, es, |es| - 1);
      SeedArrivedPrefix(es);
      forall k | j < k < |p|
        ensures !IsWrite(s, p, k)
      {
        IsWritePrefix(s, es, k);
      }
      IsWritePrefix(s, es, j);
      SelectionIsLastWrite(s, p, j);
    }
  }

  /** Without any write the selection is the one the session started with. */
  lemma {:induction false} SelectionUnwritten(s: State, es: seq<Event>)
    requires forall k :: 0 <= k < |es| ==> !IsWrite(s, es, k)
    ensures Run(s, es).state.selected == s.selected
    decreases |es|
  {
    if es != [] {
      var p := es[..|es| - 1];
      assert !IsWrite(s, es, |es| - 1);
      assert p == es[..|es| - 1];
      InitializedIffSeeded(s, p);
      forall k | 0 <= k < |p|
        ensures !IsWrite(s, p, k)
      {
        IsWritePrefix(s, es, k);
      }
      SelectionUnwritten(s, p);
    }
  }

  /** Host data delivered before any user action is shown; a second, different push is ignored. */
  lemma FirstHostDataWins(d1: EmojiData, d2: EmojiData)
    ensures Run(Initial, [HostData(Some(d1))]).state == State(Some(d1), true)
    ensures Run(Initial, [HostData(Some(d1)), HostData(Some(d2))]) == Trace(State(Some(d1), true), [])
  {
  }

  /**
   * A pick does not set the flag, so the first data-carrying host push that
   * comes after it still replaces the picked emoji.
   */
  lemma PickDoesNotBlockHostData(id: string, native: string, unified: string, name: Option<string>, d: EmojiData)
    ensures Run(Initial, [Pick(id, native, unified, name), HostData(Some(d))]).state == State(Some(d), true)
  {
    var es := [Pick(id, native, unified, name), HostData(Some(d))];
    assert es[..1] == [Pick(id, native, unified, name)];
    assert Run(Initial, es[..1]).state.initialized == false;
  }

  /** Picking "grinning" sends its glyph, "Grinning Face (1F600)" and the lower-cased image file. */
  lemma GrinningExample()
    ensures
      var picked := EmojiData("grinning", "\U{1F600}", "1F600", Some("Grinning Face"));
      Run(Initial, [Pick("grinning", "\U{1F600}", "1F600", Some("Grinning Face"))])
        == Trace(State(Some(picked), false),
                 [Payload("\U{1F600}", "Grinning Face (1F600)", ImageBase + "1f600.png", Some(picked))])
  {
    var picked := EmojiData("grinning", "\U{1F600}", "1F600", Some("Grinning Face"));
    assert Ascii.ToLower("1F600") == "1f600";
    assert Description(picked) == "Grinning Face (1F600)";
    assert ImageUrl("1F600") == ImageBase + "1f600.png";
  }
}
