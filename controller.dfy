/** The pause/rejoin controller of the voice selfbot: the module-level
    `isPaused` flag, the `voiceStateUpdate` and `messageCreate` handlers, and
    the guards of `joinVC` and `leaveVC`.

    Each handler is given once as a function from the old state to the new
    state and the calls it makes into the voice library (the specification),
    and once as a method of `PauseController` that updates the flag in place
    and is proved to agree with that function. The Discord client's caches
    are an input to each handler; the voice library's connection for the
    target guild is the `connected` part of the state. */
module Controller {
  import opened Normalize
  import opened Commands

  /** Discord ids (users, guilds, channels). */
  type Snowflake = string

  datatype Option<T> = None | Some(value: T)

  /** The target, read once from GUILD_ID and CHANNEL_ID. */
  datatype Config = Config(guild: Snowflake, channel: Snowflake)

  /** What the client's caches hold when a handler runs: for every cached
      guild its cached channels, and for every channel the ids of the members
      connected to it. */
  datatype Cache = Cache(guilds: map<Snowflake, map<Snowflake, set<Snowflake>>>)

  /** A `voiceStateUpdate` event: whose voice state changed, and the channel
      ids before and after (null when not in voice). */
  datatype VoiceUpdate = VoiceUpdate(memberId: Snowflake, oldChannel: Option<Snowflake>, newChannel: Option<Snowflake>)

  /** A `messageCreate` event. */
  datatype Message = Message(authorId: Snowflake, content: string)

  /** Calls into the voice library: `joinVoiceChannel` for the target, and
      `destroy` on the target guild's connection. */
  datatype Action = Join | Leave

  /** `isPaused`, and whether the voice library holds a connection for the
      target guild (what `getVoiceConnection` finds). */
  datatype State = State(paused: bool, connected: bool)

  /** The state after a handler and the voice-library calls it made. */
  datatype Step = Step(state: State, actions: seq<Action>)

  /** How `joinVC` ends: the three early returns, or the join call. */
  datatype JoinOutcome = SkippedPaused | GuildNotFound | ChannelNotFound | Joined

  /** Both cache lookups of `joinVC` succeed. */
  predicate TargetResolves(cache: Cache, cfg: Config) {
    cfg.guild in cache.guilds && cfg.channel in cache.guilds[cfg.guild]
  }

  /** `guild?.channels.cache.get(channel)?.members?.has(self)`. */
  predicate SelfInTarget(cache: Cache, cfg: Config, selfId: Snowflake) {
    TargetResolves(cache, cfg) && selfId in cache.guilds[cfg.guild][cfg.channel]
  }

  /** JavaScript's `!id` for a channel id: null or the empty string. */
  predicate Falsy(id: Option<Snowflake>) {
    id.None? || id.value == ""
  }

  /** The guards of `joinVC`, in the order the code checks them. */
  function TryJoin(paused: bool, cache: Cache, cfg: Config): (o: JoinOutcome)
    ensures o == Joined <==> !paused && TargetResolves(cache, cfg)
    ensures o == SkippedPaused <==> paused
    ensures o == GuildNotFound <==> !paused && cfg.guild !in cache.guilds
  {
    if paused then SkippedPaused
    else if cfg.guild !in cache.guilds then GuildNotFound
    else if cfg.channel !in cache.guilds[cfg.guild] then ChannelNotFound
    else Joined
  }

  /** `joinVC`: the join call is reached only when not paused and both
      lookups succeed; the flag is never written. */
  function JoinStep(s: State, cache: Cache, cfg: Config): (r: Step)
    ensures r.state.paused == s.paused
    ensures Join in r.actions ==> !s.paused
    ensures Join in r.actions <==> TryJoin(s.paused, cache, cfg) == Joined
    ensures Leave !in r.actions && |r.actions| <= 1
    ensures r.state.connected == (s.connected || Join in r.actions)
  {
    if TryJoin(s.paused, cache, cfg) == Joined then Step(s.(connected := true), [Join])
    else Step(s, [])
  }

  /** `leaveVC`: destroys the connection when there is one, else does
      nothing; the flag is never written. */
  function LeaveStep(s: State): (r: Step)
    ensures r.state == s.(connected := false)
    ensures Leave in r.actions <==> s.connected
    ensures Join !in r.actions && |r.actions| <= 1
  {
    if s.connected then Step(s.(connected := false), [Leave]) else Step(s, [])
  }

  /** Calling `leaveVC` a second time does nothing more. */
  lemma {:induction false} LeaveIdempotent(s: State)
    ensures LeaveStep(LeaveStep(s).state) == Step(LeaveStep(s).state, [])
  {
  }

  /** The conditions under which the voice handler pauses. */
  predicate PausesOn(u: VoiceUpdate, selfId: Snowflake, cfg: Config, cache: Cache) {
    u.memberId == selfId && u.oldChannel != u.newChannel
    && Falsy(u.newChannel) && SelfInTarget(cache, cfg, selfId)
  }

  /** The conditions under which the voice handler asks to (re)join. */
  predicate RejoinsOn(s: State, u: VoiceUpdate, selfId: Snowflake, cfg: Config, cache: Cache) {
    u.memberId == selfId && u.oldChannel != u.newChannel && !s.paused
    && (if Falsy(u.newChannel) then !SelfInTarget(cache, cfg, selfId)
        else u.newChannel.value != cfg.channel)
  }

  /** The `voiceStateUpdate` handler. */
  function VoiceStep(s: State, u: VoiceUpdate, selfId: Snowflake, cfg: Config, cache: Cache): (r: Step)
    // events about other members, and events that keep the channel, change nothing
    ensures u.memberId != selfId || u.oldChannel == u.newChannel ==> r == Step(s, [])
    // the flag is set exactly when self left voice while cached in the target
    ensures r.state.paused == (s.paused || PausesOn(u, selfId, cfg, cache))
    // a join is issued exactly when the handler rejoins and joinVC's lookups succeed
    ensures Join in r.actions <==> RejoinsOn(s, u, selfId, cfg, cache) && TargetResolves(cache, cfg)
    // never a join while paused, before or after
    ensures Join in r.actions ==> !s.paused && !r.state.paused
    // while paused nothing is called, and moving into the target is a no-op
    ensures s.paused ==> r.actions == []
    ensures !Falsy(u.newChannel) && u.newChannel.value == cfg.channel ==> r == Step(s, [])
    ensures Leave !in r.actions && |r.actions| <= 1
    ensures r.state.connected == (s.connected || Join in r.actions)
  {
    if u.memberId != selfId then Step(s, [])
    else if u.oldChannel == u.newChannel then Step(s, [])
    else if Falsy(u.newChannel) then
      if SelfInTarget(cache, cfg, selfId) then Step(s.(paused := true), [])
      else if !s.paused then JoinStep(s, cache, cfg)
      else Step(s, [])
    else if u.newChannel.value != cfg.channel && !s.paused then JoinStep(s, cache, cfg)
    else Step(s, [])
  }

  /** Pausing because self is cached in the target does not destroy the
      voice library's connection: the flag can be set while a connection is
      still held. */
  lemma {:induction false} PauseKeepsConnection(selfId: Snowflake, cfg: Config, cache: Cache)
    requires SelfInTarget(cache, cfg, selfId)
    ensures var u := VoiceUpdate(selfId, Some(cfg.channel), None);
      VoiceStep(State(false, true), u, selfId, cfg, cache) == Step(State(true, true), [])
  {
  }

  /** What `!vc status` prints. */
  function StatusReport(paused: bool): (text: string)
    ensures text == "PAUSED" <==> paused
    ensures text == "RUNNING" <==> !paused
  {
    if paused then "PAUSED" else "RUNNING"
  }

  /** What a self-authored command does to the state. */
  function CommandStep(s: State, cmd: Command, cfg: Config, cache: Cache): (r: Step)
    // status requests and other text change nothing
    ensures cmd in {Status, Ignored} ==> r == Step(s, [])
    // `&povv` clears the flag, then joins if both lookups succeed
    ensures cmd == Resume ==>
      r.state == State(false, s.connected || TargetResolves(cache, cfg))
      && r.actions == (if TargetResolves(cache, cfg) then [Join] else [])
    // `!vc pause` sets the flag and destroys the connection if there is one
    ensures cmd == Pause ==> r.state == State(true, false) && r.actions == (if s.connected then [Leave] else [])
    // only `&povv` clears the flag
    ensures s.paused && !r.state.paused ==> cmd == Resume
    ensures Join in r.actions ==> !r.state.paused
    ensures r.state.connected == (if Leave in r.actions then false else s.connected || Join in r.actions)
  {
    match cmd
    case Resume => JoinStep(s.(paused := false), cache, cfg)
    case Pause => LeaveStep(s.(paused := true))
    case Status => Step(s, [])
    case Ignored => Step(s, [])
  }

  /** The `messageCreate` handler: only the account's own messages are
      commands. */
  function MessageStep(s: State, m: Message, selfId: Snowflake, cfg: Config, cache: Cache): (r: Step)
    // messages by anyone else change nothing; the account's own run the
    // command their normalised text names
    ensures m.authorId != selfId ==> r == Step(s, [])
    ensures m.authorId == selfId ==> r == CommandStep(s, Parse(m.content), cfg, cache)
    // only `&povv` by self clears the flag
    ensures s.paused && !r.state.paused ==> m.authorId == selfId && Parse(m.content) == Resume
  {
    if m.authorId != selfId then Step(s, []) else CommandStep(s, Parse(m.content), cfg, cache)
  }

  /** The selfbot's controller: the flag, the voice library's connection for
      the target guild, and the record of every call made into the voice
      library. */
  class PauseController {
    const selfId: Snowflake
    const config: Config
    var isPaused: bool
    var connected: bool
    var log: seq<Action>

    function Snapshot(): State
      reads this
    {
      State(isPaused, connected)
    }

    /** Start-up: not paused, no connection, nothing called yet. */
    constructor (selfId: Snowflake, config: Config)
      ensures this.selfId == selfId && this.config == config
      ensures Snapshot() == State(false, false) && log == []
    {
      this.selfId := selfId;
      this.config := config;
      isPaused := false;
      connected := false;
      log := [];
    }

    method JoinVC(cache: Cache) returns (outcome: JoinOutcome)
      modifies this
      ensures outcome == TryJoin(old(isPaused), cache, config)
      ensures var r := JoinStep(old(Snapshot()), cache, config);
        Snapshot() == r.state && log == old(log) + r.actions
    {
      if isPaused {
        return SkippedPaused;
      }
      if config.guild !in cache.guilds {
        return GuildNotFound;
      }
      var channels := cache.guilds[config.guild];
      if config.channel !in channels {
        return ChannelNotFound;
      }
      connected := true;
      log := log + [Join];
      return Joined;
    }

    method LeaveVC()
      modifies this
      ensures var r := LeaveStep(old(Snapshot()));
        Snapshot() == r.state && log == old(log) + r.actions
    {
      if connected {
        connected := false;
        log := log + [Leave];
      }
    }

    method OnVoiceStateUpdate(update: VoiceUpdate, cache: Cache)
      modifies this
      ensures var r := VoiceStep(old(Snapshot()), update, selfId, config, cache);
        Snapshot() == r.state && log == old(log) + r.actions
    {
      if update.memberId != selfId {
        return;
      }
      var oldVoice, newVoice := update.oldChannel, update.newChannel;
      if oldVoice == newVoice {
        return;
      }
      if Falsy(newVoice) {
        var userInChannel := config.guild in cache.guilds
          && config.channel in cache.guilds[config.guild]
          && selfId in cache.guilds[config.guild][config.channel];
        if userInChannel {
          isPaused := true;
        } else if !isPaused {
          var outcome := JoinVC(cache);
        }
      } else if newVoice.value != config.channel && !isPaused {
        var outcome := JoinVC(cache);
      }
    }

    /** The body of the `messageCreate` handler once the message is known
        to be the account's own; returns the line `!vc status` prints. */
    method RunCommand(cmd: Command, cache: Cache) returns (report: Option<string>)
      modifies this
      ensures var r := CommandStep(old(Snapshot()), cmd, config, cache);
        Snapshot() == r.state && log == old(log) + r.actions
      ensures report.Some? <==> cmd == Status
      ensures report.Some? ==> report.value == StatusReport(isPaused)
    {
      report := None;
      match cmd
      case Resume =>
        isPaused := false;
        var outcome := JoinVC(cache);
      case Pause =>
        isPaused := true;
        LeaveVC();
      case Status =>
        report := Some(StatusReport(isPaused));
      case Ignored =>
    }

    /** Ignores other authors, then compares the normalised text with the
        three words (`Parse`) and runs the command. */
    method OnMessageCreate(message: Message, cache: Cache) returns (report: Option<string>)
      modifies this
      ensures var r := MessageStep(old(Snapshot()), message, selfId, config, cache);
        Snapshot() == r.state && log == old(log) + r.actions
      ensures report.Some? <==> message.authorId == selfId && Parse(message.content) == Status
      ensures report.Some? ==> report.value == StatusReport(isPaused)
    {
      if message.authorId != selfId {
        return None;
      }
      report := RunCommand(Parse(message.content), cache);
    }
  }
}
