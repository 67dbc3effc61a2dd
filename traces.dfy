/** The controller over a whole session: the client delivers events one at a
    time and each handler runs to completion before the next event. */
module Traces {
  import opened Commands
  import opened Controller

  /** An event the client delivers, with the caches as they are when its
      handler runs. */
  datatype Event =
    | VoiceStateUpdate(update: VoiceUpdate, cache: Cache)
    | MessageCreate(message: Message, cache: Cache)

  /** Dispatches one event to its handler. */
  function Handle(s: State, e: Event, selfId: Snowflake, cfg: Config): Step {
    match e
    case VoiceStateUpdate(u, cache) => VoiceStep(s, u, selfId, cfg, cache)
    case MessageCreate(m, cache) => MessageStep(s, m, selfId, cfg, cache)
  }

  /** Handles the events in order, collecting every voice-library call. */
  function Run(s: State, events: seq<Event>, selfId: Snowflake, cfg: Config): (r: Step)
    ensures |r.actions| <= |events|
    decreases |events|
  {
    if events == [] then Step(s, [])
    else
      var first := Handle(s, events[0], selfId, cfg);
      var rest := Run(first.state, events[1..], selfId, cfg);
      Step(rest.state, first.actions + rest.actions)
  }

  /** A self-authored `&povv`. */
  predicate IsResume(e: Event, selfId: Snowflake) {
    e.MessageCreate? && e.message.authorId == selfId && Parse(e.message.content) == Resume
  }

  /** A self-authored `!vc pause`. */
  predicate IsPauseCommand(e: Event, selfId: Snowflake) {
    e.MessageCreate? && e.message.authorId == selfId && Parse(e.message.content) == Pause
  }

  predicate NoResume(events: seq<Event>, selfId: Snowflake) {
    forall i | 0 <= i < |events| :: !IsResume(events[i], selfId)
  }

  /** Handling `a` and then `b` is handling `a + b`. */
  lemma {:induction false} RunAppend(s: State, a: seq<Event>, b: seq<Event>, selfId: Snowflake, cfg: Config)
    ensures var ra := Run(s, a, selfId, cfg);
      var rb := Run(ra.state, b, selfId, cfg);
      Run(s, a + b, selfId, cfg) == Step(rb.state, ra.actions + rb.actions)
    decreases |a|
  {
    if a == [] {
      assert a + b == b;
    } else {
      assert (a + b)[0] == a[0] && (a + b)[1..] == a[1..] + b;
      var first := Handle(s, a[0], selfId, cfg);
      RunAppend(first.state, a[1..], b, selfId, cfg);
      var ra := Run(first.state, a[1..], selfId, cfg);
      var rb := Run(ra.state, b, selfId, cfg);
      assert first.actions + (ra.actions + rb.actions) == (first.actions + ra.actions) + rb.actions;
    }
  }

  lemma {:induction false} RunOne(s: State, e: Event, selfId: Snowflake, cfg: Config)
    ensures Run(s, [e], selfId, cfg) == Handle(s, e, selfId, cfg)
  {
    assert [e][0] == e && [e][1..] == [];
    var first := Handle(s, e, selfId, cfg);
    assert first.actions + [] == first.actions;
  }

  lemma {:induction false} NoResumeTail(events: seq<Event>, selfId: Snowflake)
    requires events != [] && NoResume(events, selfId)
    ensures !IsResume(events[0], selfId) && NoResume(events[1..], selfId)
  {
    forall i | 0 <= i < |events[1..]| ensures !IsResume(events[1..][i], selfId) {
      assert events[1..][i] == events[i + 1];
    }
  }

  /** One event other than `&povv`, handled while paused. */
  lemma {:induction false} HandlePaused(s: State, e: Event, selfId: Snowflake, cfg: Config)
    requires s.paused && !IsResume(e, selfId)
    ensures var r := Handle(s, e, selfId, cfg);
      r.state.paused && Join !in r.actions && (r.state.connected ==> s.connected)
      && (!s.connected ==> r == Step(s, []))
  {
  }

  /** Once paused, the flag stays set and no join is ever issued until a
      self-authored `&povv` arrives; no connection is opened meanwhile. */
  lemma {:induction false} PausedUntilResume(s: State, events: seq<Event>, selfId: Snowflake, cfg: Config)
    requires s.paused
    requires NoResume(events, selfId)
    ensures Run(s, events, selfId, cfg).state.paused
    ensures Join !in Run(s, events, selfId, cfg).actions
    ensures Run(s, events, selfId, cfg).state.connected ==> s.connected
    decreases |events|
  {
    if events != [] {
      NoResumeTail(events, selfId);
      var first := Handle(s, events[0], selfId, cfg);
      HandlePaused(s, events[0], selfId, cfg);
      PausedUntilResume(first.state, events[1..], selfId, cfg);
    }
  }

  /** The flag goes from set to clear only through a self-authored `&povv`. */
  lemma {:induction false} OnlyResumeUnpauses(s: State, events: seq<Event>, selfId: Snowflake, cfg: Config)
    requires s.paused && !Run(s, events, selfId, cfg).state.paused
    ensures exists i :: 0 <= i < |events| && IsResume(events[i], selfId)
  {
    if NoResume(events, selfId) {
      PausedUntilResume(s, events, selfId, cfg);
    }
  }

  /** Paused with no connection, every event but `&povv` is a no-op: the state
      and the record of calls stay exactly as they are. */
  lemma {:induction false} QuietWhilePaused(s: State, events: seq<Event>, selfId: Snowflake, cfg: Config)
    requires s == State(true, false)
    requires NoResume(events, selfId)
    ensures Run(s, events, selfId, cfg) == Step(s, [])
    decreases |events|
  {
    if events != [] {
      NoResumeTail(events, selfId);
      HandlePaused(s, events[0], selfId, cfg);
      QuietWhilePaused(s, events[1..], selfId, cfg);
    }
  }

  /** After `!vc pause`, nothing more is called and the flag stays set until
      the next `&povv`, whatever happened before. */
  lemma {:induction false} PauseCommandHolds(s: State, before: seq<Event>, pause: Event, after: seq<Event>, selfId: Snowflake, cfg: Config)
    requires IsPauseCommand(pause, selfId)
    requires NoResume(after, selfId)
    ensures var upTo := Run(s, before + [pause], selfId, cfg);
      upTo.state == State(true, false)
      && Run(s, before + [pause] + after, selfId, cfg) == upTo
  {
    var prefix := Run(s, before, selfId, cfg);
    RunAppend(s, before, [pause], selfId, cfg);
    RunOne(prefix.state, pause, selfId, cfg);
    var upTo := Run(s, before + [pause], selfId, cfg);
    RunAppend(s, before + [pause], after, selfId, cfg);
    QuietWhilePaused(upTo.state, after, selfId, cfg);
    assert upTo.actions + [] == upTo.actions;
  }

  /** Sending `!vc pause` twice has the effect of sending it once. */
  lemma {:induction false} PauseTwiceIsPauseOnce(s: State, pause: Event, selfId: Snowflake, cfg: Config)
    requires IsPauseCommand(pause, selfId)
    ensures Run(s, [pause, pause], selfId, cfg) == Run(s, [pause], selfId, cfg)
  {
    var none: seq<Event> := [];
    assert [pause, pause] == none + [pause] + [pause];
    PauseCommandHolds(s, none, pause, [pause], selfId, cfg);
    assert none + [pause] == [pause];
  }

  /** A self-authored `&povv` clears the flag from any state and joins
      exactly when the target resolves; it never destroys a connection. */
  lemma {:induction false} ResumeCommandRejoins(s: State, resume: Event, selfId: Snowflake, cfg: Config)
    requires IsResume(resume, selfId)
    ensures var resolves := TargetResolves(resume.cache, cfg);
      Run(s, [resume], selfId, cfg)
        == Step(State(false, s.connected || resolves), if resolves then [Join] else [])
  {
    RunOne(s, resume, selfId, cfg);
  }

  /** When not paused, leaving voice while not cached in the target, or being
      moved to another channel, brings a join whenever the lookups succeed. */
  lemma {:induction false} RejoinsWhileRunning(s: State, u: VoiceUpdate, cache: Cache, selfId: Snowflake, cfg: Config)
    requires !s.paused && u.memberId == selfId && u.oldChannel != u.newChannel
    requires TargetResolves(cache, cfg)
    requires Falsy(u.newChannel) ==> !SelfInTarget(cache, cfg, selfId)
    requires !Falsy(u.newChannel) ==> u.newChannel.value != cfg.channel
    ensures Run(s, [VoiceStateUpdate(u, cache)], selfId, cfg) == Step(s.(connected := true), [Join])
  {
    RunOne(s, VoiceStateUpdate(u, cache), selfId, cfg);
  }
}
