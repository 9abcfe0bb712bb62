/** The playback controller as a state machine over values.

    The bot keeps three pieces of global state: the FIFO of song paths, the
    "busy" flag, and the voice connection. Its audio sink is reduced to
    whether the current player is playing and how many completion callbacks
    are still owed by players that were told to stop; a play_next task put on
    the event loop but not yet run is counted in `scheduled`. The event loop
    is cooperative, so each handler below is one atomic transition. */
module Playback {
  import opened Wrappers
  import opened Text
  import opened Files

  /** `current_vc`: no voice client, or one that is connected or not. */
  datatype VoiceLink = NoClient | Client(connected: bool)
  {
    /** `current_vc and current_vc.is_connected()` */
    predicate Live()
    {
      Client? && connected
    }
  }

  datatype State = State(
    queue: seq<string>,  // song_queue, head first
    busy: bool,          // bot_is_playing
    link: VoiceLink,     // current_vc
    playing: bool,       // current_vc.is_playing()
    owed: nat,           // completion callbacks still owed by stopped players
    scheduled: nat)      // play_next tasks created and not yet run

  /** The state when the bot starts. */
  const Initial: State := State([], false, NoClient, false, 0, 0)

  /** A transition's new state and what it reports. */
  datatype Outcome<R> = Outcome(state: State, reply: R)

  /** What one pass of play_next announces. */
  datatype Notice =
    | NowPlaying(path: string)       // handed to the player
    | FileMissing(path: string)      // dequeued, but the file is gone
    | PlaybackFailed(path: string)   // dequeued, but the player could not start
    | QueueIdle                      // queue empty or not connected

  /** The busy flag is never left set without something that will come back
      to the controller: a playing track, a callback owed by a stopped
      player, or a scheduled play_next. */
  predicate Inv(s: State)
  {
    s.busy ==> s.playing || s.owed > 0 || s.scheduled > 0
  }

  /** `current_vc.stop()`: a playing player stops and owes its callback. */
  function Halt(s: State): (r: State)
    ensures !r.playing && r.owed == s.owed + (if s.playing then 1 else 0)
    ensures r.queue == s.queue && r.busy == s.busy && r.link == s.link && r.scheduled == s.scheduled
  {
    if s.playing then s.(playing := false, owed := s.owed + 1) else s
  }

  /** play_next. With an empty queue or no live connection it only clears
      busy. Otherwise it takes the head of the queue and either hands it to
      the player, or drops it (file gone, or the player refuses: the setup
      raised, or the voice client is already playing) and schedules one more
      pass. */
  function Advance(s: State, disk: Disk, setupFails: bool): (r: Outcome<Notice>)
    ensures !(s.queue != [] && s.link.Live()) ==> r == Outcome(s.(busy := false), QueueIdle)
    ensures s.queue != [] && s.link.Live() ==>
      && !r.reply.QueueIdle?
      && s.queue == [r.reply.path] + r.state.queue
      && (r.reply.FileMissing? <==> !Exists(disk, s.queue[0]))
      && (r.reply.NowPlaying? <==> Exists(disk, s.queue[0]) && !setupFails && !s.playing)
      && r.state.busy == r.reply.NowPlaying?
      && r.state.playing == (s.playing || r.reply.NowPlaying?)
      && r.state.scheduled == s.scheduled + (if r.reply.NowPlaying? then 0 else 1)
      && r.state.link == s.link && r.state.owed == s.owed
  {
    if s.queue != [] && s.link.Live() then
      var path := s.queue[0];
      var taken := s.(busy := true, queue := s.queue[1..]);
      if !Exists(disk, path) then
        Outcome(taken.(busy := false, scheduled := s.scheduled + 1), FileMissing(path))
      else if setupFails || s.playing then
        Outcome(taken.(busy := false, scheduled := s.scheduled + 1), PlaybackFailed(path))
      else
        Outcome(taken.(playing := true), NowPlaying(path))
    else
      Outcome(s.(busy := false), QueueIdle)
  }

  /** after_playing: whatever the error, clear busy and schedule exactly one
      play_next. */
  function AfterPlaying(s: State, error: bool): (r: State)
    ensures !r.busy && r.scheduled == s.scheduled + 1
    ensures r.queue == s.queue && r.link == s.link && r.playing == s.playing && r.owed == s.owed
  {
    s.(busy := false, scheduled := s.scheduled + 1)
  }

  datatype PlayReply =
    | NotInVoice                   // the requester is in no voice channel
    | JoinFailed                   // connecting to the requester's channel failed
    | MoveFailed                   // moving to the requester's channel failed
    | NotFound(name: string)       // no such regular file in the music folder
    | Added(name: string, length: nat, started: Option<Notice>)

  /** The voice connection step of /play succeeds: the requester is in a
      channel and the connect (when not live) or the move (when live but in
      another channel) goes through. */
  predicate Joins(s: State, inVoice: bool, sameChannel: bool, linkOk: bool)
  {
    inVoice && (if s.link.Live() then sameChannel || linkOk else linkOk)
  }

  /** The state once /play has its voice client in the requester's channel.
      A move keeps the client and its player. A connect replaces the client
      by a new one that has played nothing; a player left on the old client
      has stopped and still owes its callback. */
  function Joined(s: State): (r: State)
    ensures r.link == Client(true) && r.queue == s.queue && r.busy == s.busy && r.scheduled == s.scheduled
    ensures s.link.Live() ==> r == s.(link := Client(true))
    ensures !s.link.Live() ==> !r.playing && r.owed == s.owed + (if s.playing then 1 else 0)
  {
    if s.link.Live() then s.(link := Client(true)) else Halt(s).(link := Client(true))
  }

  /** The path /play queues for a song name. */
  function SongPath(name: string): string
  {
    PathJoin(MusicFolder, name)
  }

  /** /play. After joining the requester's channel it checks that the song
      is a regular file, appends its path to the queue and, only when busy
      is clear, runs play_next at once. */
  function Request(s: State, disk: Disk, name: string, inVoice: bool, sameChannel: bool,
                   linkOk: bool, setupFails: bool): (r: Outcome<PlayReply>)
    ensures !inVoice ==> r == Outcome(s, NotInVoice)
    ensures inVoice && !s.link.Live() && !linkOk ==> r == Outcome(s, JoinFailed)
    ensures inVoice && s.link.Live() && !sameChannel && !linkOk ==> r == Outcome(s, MoveFailed)
    ensures Joins(s, inVoice, sameChannel, linkOk) ==> r.state.link == Client(true)
    ensures r.reply.NotFound? <==> Joins(s, inVoice, sameChannel, linkOk) && !(Exists(disk, SongPath(name)) && IsFile(disk, SongPath(name)))
    ensures r.reply.NotFound? ==> r.state == Joined(s)
    ensures r.reply.Added? <==> Joins(s, inVoice, sameChannel, linkOk) && Exists(disk, SongPath(name)) && IsFile(disk, SongPath(name))
    ensures r.reply.Added? ==>
      && r.reply.name == name
      && r.reply.length == |s.queue| + 1
      && (r.reply.started.Some? <==> !s.busy)
      && var queued := Joined(s).(queue := s.queue + [SongPath(name)]);
         if s.busy then r.state == queued
         else Outcome(r.state, r.reply.started.value) == Advance(queued, disk, setupFails)
  {
    if !inVoice then Outcome(s, NotInVoice)
    else if !s.link.Live() && !linkOk then Outcome(s, JoinFailed)
    else if s.link.Live() && !sameChannel && !linkOk then Outcome(s, MoveFailed)
    else
      var joined := Joined(s);
      var path := SongPath(name);
      if !Exists(disk, path) || !IsFile(disk, path) then Outcome(joined, NotFound(name))
      else
        var queued := joined.(queue := s.queue + [path]);
        if s.busy then Outcome(queued, Added(name, |queued.queue|, None))
        else
          var a := Advance(queued, disk, setupFails);
          Outcome(a.state, Added(name, |queued.queue|, Some(a.reply)))
  }

  datatype StopReply = Cleared(count: nat) | NotActive

  /** /stop. When connected: stop the player, empty the queue, clear busy and
      report how many songs were removed. Otherwise nothing changes. */
  function Stop(s: State): (r: Outcome<StopReply>)
    ensures !s.link.Live() ==> r == Outcome(s, NotActive)
    ensures s.link.Live() ==>
      && r.reply == Cleared(|s.queue|)
      && r.state.queue == [] && !r.state.busy && !r.state.playing
      && r.state.owed == s.owed + (if s.playing then 1 else 0)
      && r.state.link == s.link && r.state.scheduled == s.scheduled
  {
    if s.link.Live() then Outcome(Halt(s).(queue := [], busy := false), Cleared(|s.queue|))
    else Outcome(s, NotActive)
  }

  datatype SkipReply = Skipping | ForcedSkip | NothingToSkip

  /** /skip. A playing track is stopped and its callback does the rest. When
      busy is set but nothing plays, busy is cleared and one play_next is
      scheduled directly. The queue is never touched. */
  function Skip(s: State): (r: Outcome<SkipReply>)
    ensures r.state.queue == s.queue && r.state.link == s.link
    ensures s.link.Client? && s.playing ==>
      r.reply == Skipping && !r.state.playing && r.state.owed == s.owed + 1 && r.state.busy == s.busy && r.state.scheduled == s.scheduled
    ensures s.link.Client? && !s.playing && s.busy ==>
      r.reply == ForcedSkip && !r.state.busy && !r.state.playing && r.state.scheduled == s.scheduled + 1 && r.state.owed == s.owed
    ensures !(s.link.Client? && (s.playing || s.busy)) ==> r == Outcome(s, NothingToSkip)
  {
    if s.link.Client? && s.playing then Outcome(Halt(s), Skipping)
    else if s.link.Client? && s.busy then
      Outcome(Halt(s).(busy := false, scheduled := s.scheduled + 1), ForcedSkip)
    else Outcome(s, NothingToSkip)
  }

  datatype LeaveReply = Left(count: nat) | NotInChannel

  /** /leave. When connected: stop the player, empty the queue, clear busy
      and drop the voice client. Otherwise nothing changes. */
  function Leave(s: State): (r: Outcome<LeaveReply>)
    ensures !s.link.Live() ==> r == Outcome(s, NotInChannel)
    ensures s.link.Live() ==>
      && r.reply == Left(|s.queue|)
      && r.state.queue == [] && !r.state.busy && !r.state.playing && r.state.link == NoClient
      && r.state.owed == s.owed + (if s.playing then 1 else 0) && r.state.scheduled == s.scheduled
  {
    if s.link.Live() then Outcome(Halt(s).(queue := [], busy := false, link := NoClient), Left(|s.queue|))
    else Outcome(s, NotInChannel)
  }

  /** Everything that can happen to the controller: the commands, the
      player's callbacks, a scheduled play_next running, and the voice
      connection dropping. */
  datatype Event =
    | PlayCommand(disk: Disk, name: string, inVoice: bool, sameChannel: bool, linkOk: bool, setupFails: bool)
    | StopCommand
    | SkipCommand
    | LeaveCommand
    | TrackEnded(error: bool)             // the playing track finishes or fails
    | StoppedPlayerDone(error: bool)      // a stopped player delivers its callback
    | ScheduledAdvance(disk: Disk, setupFails: bool)
    | ConnectionLost

  datatype Reply =
    | PlayR(play: PlayReply)
    | StopR(stop: StopReply)
    | SkipR(skip: SkipReply)
    | LeaveR(leave: LeaveReply)
    | AdvanceR(notice: Notice)
    | Silent

  /** One event. A callback or task that is not pending does not occur. */
  function Step(s: State, e: Event): Outcome<Reply>
  {
    match e
    case PlayCommand(disk, name, inVoice, sameChannel, linkOk, setupFails) =>
      var o := Request(s, disk, name, inVoice, sameChannel, linkOk, setupFails);
      Outcome(o.state, PlayR(o.reply))
    case StopCommand => var o := Stop(s); Outcome(o.state, StopR(o.reply))
    case SkipCommand => var o := Skip(s); Outcome(o.state, SkipR(o.reply))
    case LeaveCommand => var o := Leave(s); Outcome(o.state, LeaveR(o.reply))
    case TrackEnded(error) =>
      if s.playing then Outcome(AfterPlaying(s.(playing := false), error), Silent) else Outcome(s, Silent)
    case StoppedPlayerDone(error) =>
      if s.owed > 0 then Outcome(AfterPlaying(s.(owed := s.owed - 1), error), Silent) else Outcome(s, Silent)
    case ScheduledAdvance(disk, setupFails) =>
      if s.scheduled > 0 then
        var o := Advance(s.(scheduled := s.scheduled - 1), disk, setupFails);
        Outcome(o.state, AdvanceR(o.reply))
      else Outcome(s, Silent)
    case ConnectionLost =>
      if s.link.Client? then Outcome(s.(link := Client(false)), Silent) else Outcome(s, Silent)
  }

  /** The paths a reply says were put on the queue. */
  function Enqueued(r: Reply): seq<string>
  {
    if r.PlayR? && r.play.Added? then [SongPath(r.play.name)] else []
  }

  /** The paths a reply says were taken off the queue `before` (played,
      dropped, or cleared). */
  function Dequeued(before: State, r: Reply): seq<string>
  {
    match r
    case PlayR(Added(_, _, Some(n))) => if n.QueueIdle? then [] else [n.path]
    case AdvanceR(n) => if n.QueueIdle? then [] else [n.path]
    case StopR(Cleared(_)) => before.queue
    case LeaveR(Left(_)) => before.queue
    case _ => []
  }

  /** The queue is a FIFO: whatever one event takes comes off the front,
      whatever it adds goes on the back, and nothing else changes. */
  lemma StepIsFifo(s: State, e: Event)
    ensures var o := Step(s, e); s.queue + Enqueued(o.reply) == Dequeued(s, o.reply) + o.state.queue
  {
    var o := Step(s, e);
    match e
    case PlayCommand(disk, name, inVoice, sameChannel, linkOk, setupFails) =>
      var r := Request(s, disk, name, inVoice, sameChannel, linkOk, setupFails);
      if r.reply.Added? && !s.busy {
        var queued := Joined(s).(queue := s.queue + [SongPath(name)]);
        var a := Advance(queued, disk, setupFails);
        assert queued.queue == [a.reply.path] + a.state.queue;
      }
    case StopCommand =>
    case SkipCommand =>
    case LeaveCommand =>
    case TrackEnded(_) =>
    case StoppedPlayerDone(_) =>
    case ScheduledAdvance(disk, setupFails) =>
    case ConnectionLost =>
  }

  /** Every event keeps the busy flag backed by a pending wake-up. */
  lemma StepKeepsInv(s: State, e: Event)
    requires Inv(s)
    ensures Inv(Step(s, e).state)
  {
  }

  /** A run of events: the final state, the replies, and in order everything
      put on and taken off the queue. */
  datatype Trace = Trace(final: State, replies: seq<Reply>, added: seq<string>, taken: seq<string>)

  function Run(s: State, es: seq<Event>): (t: Trace)
    ensures |t.replies| == |es|
    decreases |es|
  {
    if es == [] then Trace(s, [], [], [])
    else
      var o := Step(s, es[0]);
      var t := Run(o.state, es[1..]);
      Trace(t.final, [o.reply] + t.replies, Enqueued(o.reply) + t.added, Dequeued(s, o.reply) + t.taken)
  }

  /** The first event of a run, then the rest of it. */
  lemma RunFirst(s: State, e: Event, rest: seq<Event>)
    ensures var o := Step(s, e); var t := Run(o.state, rest);
      Run(s, [e] + rest) == Trace(t.final, [o.reply] + t.replies, Enqueued(o.reply) + t.added, Dequeued(s, o.reply) + t.taken)
  {
    assert ([e] + rest)[1..] == rest;
  }

  /** Two events in a row, one step at a time. */
  lemma RunTwo(s: State, e1: Event, e2: Event)
    ensures var o1 := Step(s, e1); var o2 := Step(o1.state, e2);
      var t := Run(s, [e1, e2]);
      && t.final == o2.state
      && t.replies == [o1.reply, o2.reply]
      && t.taken == Dequeued(s, o1.reply) + Dequeued(o1.state, o2.reply)
  {
    var o1 := Step(s, e1);
    RunFirst(o1.state, e2, []);
    assert [e2] + [] == [e2];
    RunFirst(s, e1, [e2]);
    assert [e1] + [e2] == [e1, e2];
  }

  /** Three events in a row, one step at a time. */
  lemma RunThree(s: State, e1: Event, e2: Event, e3: Event)
    ensures var o1 := Step(s, e1); var o2 := Step(o1.state, e2); var o3 := Step(o2.state, e3);
      var t := Run(s, [e1, e2, e3]);
      && t.final == o3.state
      && t.replies == [o1.reply, o2.reply, o3.reply]
      && t.taken == Dequeued(s, o1.reply) + Dequeued(o1.state, o2.reply) + Dequeued(o2.state, o3.reply)
  {
    var o1 := Step(s, e1);
    RunTwo(o1.state, e2, e3);
    RunFirst(s, e1, [e2, e3]);
    assert [e1] + [e2, e3] == [e1, e2, e3];
  }

  lemma Chain<T>(q: seq<T>, add1: seq<T>, add2: seq<T>, take1: seq<T>, take2: seq<T>, mid: seq<T>, last: seq<T>)
    requires q + add1 == take1 + mid
    requires mid + add2 == take2 + last
    ensures q + (add1 + add2) == (take1 + take2) + last
  {
    calc {
      q + (add1 + add2);
      (q + add1) + add2;
      (take1 + mid) + add2;
      take1 + (mid + add2);
      take1 + (take2 + last);
    }
  }

  /** Over any run, songs leave the queue in exactly the order they were in
      it or were added to it: none is lost, duplicated or reordered. */
  lemma {:induction false} RunIsFifo(s: State, es: seq<Event>)
    ensures var t := Run(s, es); s.queue + t.added == t.taken + t.final.queue
    decreases |es|
  {
    if es != [] {
      var o := Step(s, es[0]);
      var t := Run(o.state, es[1..]);
      StepIsFifo(s, es[0]);
      RunIsFifo(o.state, es[1..]);
      Chain(s.queue, Enqueued(o.reply), t.added, Dequeued(s, o.reply), t.taken, o.state.queue, t.final.queue);
    }
  }

  /** The busy invariant holds in every state a run reaches from one where
      it holds, and so in every state reachable from the start. */
  lemma {:induction false} RunKeepsInv(s: State, es: seq<Event>)
    requires Inv(s)
    ensures Inv(Run(s, es).final)
    decreases |es|
  {
    if es != [] {
      StepKeepsInv(s, es[0]);
      RunKeepsInv(Step(s, es[0]).state, es[1..]);
    }
  }

  /** `n` scheduled play_next tasks running one after another. */
  function Advances(disk: Disk, n: nat): seq<Event>
  {
    seq(n, _ => ScheduledAdvance(disk, false))
  }

  /** A scheduled play_next that is pending runs as one pass of `Advance`. */
  lemma ScheduledStep(s: State, disk: Disk, setupFails: bool)
    requires s.scheduled > 0
    ensures var a := Advance(s.(scheduled := s.scheduled - 1), disk, setupFails);
      Step(s, ScheduledAdvance(disk, setupFails)) == Outcome(a.state, AdvanceR(a.reply))
  {
  }

  /** A stopped player that owes its callback delivers it as `after_playing`. */
  lemma CallbackStep(s: State, error: bool)
    requires s.owed > 0
    ensures Step(s, StoppedPlayerDone(error)) == Outcome(AfterPlaying(s.(owed := s.owed - 1), error), Silent)
  {
  }

  /** What a pass reports for a head song it drops. */
  function DropNotice(disk: Disk, path: string): (n: Notice)
    ensures !n.NowPlaying? && !n.QueueIdle? && n.path == path
    ensures n.FileMissing? <==> !Exists(disk, path)
  {
    if Exists(disk, path) then PlaybackFailed(path) else FileMissing(path)
  }

  /** The first of `k + 1` scheduled passes drops the head song (its file
      is gone, or a track is already playing): it is reported and the other
      `k` passes continue from the shortened queue. */
  lemma DropsHead(s: State, disk: Disk, k: nat)
    requires s.link.Live() && s.scheduled > 0 && s.queue != []
    requires !Exists(disk, s.queue[0]) || s.playing
    ensures var t := Run(s.(queue := s.queue[1..], busy := false), Advances(disk, k));
      Run(s, Advances(disk, k + 1)) ==
        Trace(t.final, [AdvanceR(DropNotice(disk, s.queue[0]))] + t.replies, t.added, [s.queue[0]] + t.taken)
  {
    var e := ScheduledAdvance(disk, false);
    var next := s.(queue := s.queue[1..], busy := false);
    assert Advances(disk, k + 1) == [e] + Advances(disk, k);
    ScheduledStep(s, disk, false);
    var o := Step(s, e);
    assert o == Outcome(next, AdvanceR(DropNotice(disk, s.queue[0])));
    RunFirst(s, e, Advances(disk, k));
    var t := Run(next, Advances(disk, k));
    assert Enqueued(o.reply) + t.added == t.added;
    assert Dequeued(s, o.reply) == [s.queue[0]];
  }

  /** A single scheduled pass that finds the head of the queue on disk, with
      nothing playing, starts it. */
  lemma StartsFound(s: State, disk: Disk)
    requires s.link.Live() && !s.playing && s.scheduled > 0 && s.queue != [] && Exists(disk, s.queue[0])
    ensures Run(s, Advances(disk, 1)) ==
      Trace(s.(queue := s.queue[1..], busy := true, playing := true, scheduled := s.scheduled - 1),
            [AdvanceR(NowPlaying(s.queue[0]))], [], [s.queue[0]])
  {
    var e := ScheduledAdvance(disk, false);
    assert Advances(disk, 1) == [e] + [];
    RunFirst(s, e, []);
  }

  lemma SlicesOfTail<T>(q: seq<T>, k: nat)
    requires k < |q|
    ensures q[1..][k..] == q[k + 1..]
    ensures q[..k + 1] == [q[0]] + q[1..][..k]
  {
    assert q[..k + 1] == [q[0]] + q[1..k + 1];
  }

  /** The loop never stalls on bad items: when the first `k` queued files
      are gone and the next one exists, one scheduled play_next leads, pass
      by pass, to that song playing, the `k` gone ones dropped in order. */
  lemma {:induction false} MissingFilesAreSkipped(s: State, disk: Disk, k: nat)
    requires s.link.Live() && !s.playing && s.scheduled > 0
    requires k < |s.queue| && Exists(disk, s.queue[k])
    requires forall i :: 0 <= i < k ==> !Exists(disk, s.queue[i])
    ensures var t := Run(s, Advances(disk, k + 1));
      && t.final == s.(queue := s.queue[k + 1..], busy := true, playing := true, scheduled := s.scheduled - 1)
      && t.taken == s.queue[..k + 1]
      && t.replies[k] == AdvanceR(NowPlaying(s.queue[k]))
    decreases k
  {
    if k == 0 {
      StartsFound(s, disk);
      assert s.queue[..1] == [s.queue[0]];
    } else {
      var next := s.(queue := s.queue[1..], busy := false);
      DropsHead(s, disk, k);
      assert forall i :: 0 <= i < k - 1 ==> next.queue[i] == s.queue[i + 1];
      MissingFilesAreSkipped(next, disk, k - 1);
      var rest := Run(next, Advances(disk, k));
      SlicesOfTail(s.queue, k);
      assert ([AdvanceR(DropNotice(disk, s.queue[0]))] + rest.replies)[k] == rest.replies[k - 1];
    }
  }

  /** A failed pass schedules the next one, so once a stale play_next runs
      while a track plays, pass after pass refuses the head song: `n` such
      passes drop the first `n` queued songs in order, busy ends clear, and
      the track keeps playing. */
  lemma {:induction false} StalePassesDrainQueue(s: State, disk: Disk, n: nat)
    requires s.link.Live() && s.playing && s.scheduled > 0 && n <= |s.queue|
    ensures var t := Run(s, Advances(disk, n));
      && t.final == s.(queue := s.queue[n..], busy := s.busy && n == 0)
      && t.taken == s.queue[..n]
      && forall i :: 0 <= i < n ==> t.replies[i] == AdvanceR(DropNotice(disk, s.queue[i]))
    decreases n
  {
    if n == 0 {
      assert Advances(disk, 0) == [];
      assert s.queue[0..] == s.queue;
    } else {
      var next := s.(queue := s.queue[1..], busy := false);
      DropsHead(s, disk, n - 1);
      StalePassesDrainQueue(next, disk, n - 1);
      var rest := Run(next, Advances(disk, n - 1));
      SlicesOfTail(s.queue, n - 1);
      var head := AdvanceR(DropNotice(disk, s.queue[0]));
      forall i | 0 <= i < n
        ensures ([head] + rest.replies)[i] == AdvanceR(DropNotice(disk, s.queue[i]))
      {
        if i > 0 {
          assert next.queue[i - 1] == s.queue[i];
        }
      }
    }
  }

  /** A /play that connects afresh gets a new voice client, so a player
      left on the old client cannot make it refuse the song: with busy clear
      and nothing else queued, the requested song starts at once. */
  lemma ReconnectPlays(s: State, disk: Disk, name: string, sameChannel: bool)
    requires !s.link.Live() && !s.busy && s.queue == []
    requires Exists(disk, SongPath(name)) && IsFile(disk, SongPath(name))
    ensures var r := Request(s, disk, name, true, sameChannel, true, false);
      && r.reply == Added(name, 1, Some(NowPlaying(SongPath(name))))
      && r.state.playing && r.state.busy && r.state.queue == [] && r.state.link == Client(true)
      && r.state.owed == s.owed + (if s.playing then 1 else 0)
  {
    var queued := Joined(s).(queue := [SongPath(name)]);
    assert s.queue + [SongPath(name)] == [SongPath(name)];
    assert Advance(queued, disk, false).reply == NowPlaying(SongPath(name));
  }

  /** While busy is set, a /play that connects afresh leaves nothing
      playing on the new client, so a /skip that follows takes the forced
      path: busy is cleared and a play_next is scheduled. */
  lemma ReconnectForcesSkip(s: State, disk: Disk, name: string, sameChannel: bool, setupFails: bool)
    requires !s.link.Live() && s.busy
    ensures var r := Request(s, disk, name, true, sameChannel, true, setupFails);
      var k := Skip(r.state);
      && k.reply == ForcedSkip && !k.state.busy && k.state.scheduled == s.scheduled + 1
  {
  }

  /** Two /play requests arriving while idle: the first starts playback and
      the second only queues, so exactly one hand-off happens. */
  lemma OneStartFromIdle(s: State, disk: Disk, a: string, b: string)
    requires s.link.Live() && !s.busy && !s.playing && s.queue == []
    requires Exists(disk, SongPath(a)) && IsFile(disk, SongPath(a))
    requires Exists(disk, SongPath(b)) && IsFile(disk, SongPath(b))
    ensures var t := Run(s, [PlayCommand(disk, a, true, true, true, false), PlayCommand(disk, b, true, true, true, false)]);
      && t.replies == [PlayR(Added(a, 1, Some(NowPlaying(SongPath(a))))), PlayR(Added(b, 1, None))]
      && t.final.queue == [SongPath(b)] && t.final.busy && t.final.playing
  {
    var e1 := PlayCommand(disk, a, true, true, true, false);
    var e2 := PlayCommand(disk, b, true, true, true, false);
    var s1 := s.(queue := [], busy := true, playing := true, link := Client(true));
    var s2 := s1.(queue := [SongPath(b)]);
    var r1 := PlayR(Added(a, 1, Some(NowPlaying(SongPath(a)))));
    var r2 := PlayR(Added(b, 1, None));
    assert Run(s1, [e2]) == Trace(s2, [r2], [SongPath(b)], []) by {
      assert Step(s1, e2) == Outcome(s2, r2);
      RunFirst(s1, e2, []);
      assert [e2] + [] == [e2];
    }
    assert Step(s, e1) == Outcome(s1, r1);
    RunFirst(s, e1, [e2]);
    assert [e1] + [e2] == [e1, e2];
  }

  /** /stop during playback, followed by the stopped player's callback and
      the play_next it schedules: the player was stopped once, every queued
      song was cleared and counted, and the controller ends idle. */
  lemma StopSettlesIdle(s: State, disk: Disk, error: bool, setupFails: bool)
    requires s.link.Live() && s.playing && s.busy
    ensures var t := Run(s, [StopCommand, StoppedPlayerDone(error), ScheduledAdvance(disk, setupFails)]);
      && t.replies == [StopR(Cleared(|s.queue|)), Silent, AdvanceR(QueueIdle)]
      && t.taken == s.queue
      && t.final == s.(queue := [], busy := false, playing := false)
  {
    var e1, e2, e3 := StopCommand, StoppedPlayerDone(error), ScheduledAdvance(disk, setupFails);
    var s1 := s.(queue := [], busy := false, playing := false, owed := s.owed + 1);
    var s2 := s.(queue := [], busy := false, playing := false, scheduled := s.scheduled + 1);
    var s3 := s.(queue := [], busy := false, playing := false);
    assert Step(s, e1) == Outcome(s1, StopR(Cleared(|s.queue|)));
    assert Step(s1, e2) == Outcome(s2, Silent) by {
      CallbackStep(s1, error);
    }
    assert Step(s2, e3) == Outcome(s3, AdvanceR(QueueIdle)) by {
      ScheduledStep(s2, disk, setupFails);
    }
    RunThree(s, e1, e2, e3);
  }

  /** /skip during playback, followed by the stopped player's callback and
      the play_next it schedules: the next queued song plays and the rest of
      the queue is untouched. */
  lemma SkipPlaysNext(s: State, disk: Disk, error: bool)
    requires s.link.Live() && s.playing && s.busy && s.queue != []
    requires Exists(disk, s.queue[0])
    ensures var t := Run(s, [SkipCommand, StoppedPlayerDone(error), ScheduledAdvance(disk, false)]);
      && t.replies == [SkipR(Skipping), Silent, AdvanceR(NowPlaying(s.queue[0]))]
      && t.final == s.(queue := s.queue[1..])
  {
    var e1, e2, e3 := SkipCommand, StoppedPlayerDone(error), ScheduledAdvance(disk, false);
    var song := s.queue[0];
    var s1 := s.(playing := false, owed := s.owed + 1);
    var s2 := s.(playing := false, busy := false, scheduled := s.scheduled + 1);
    var s3 := s.(queue := s.queue[1..]);
    assert Step(s, e1) == Outcome(s1, SkipR(Skipping));
    assert Step(s1, e2) == Outcome(s2, Silent) by {
      CallbackStep(s1, error);
    }
    assert Step(s2, e3) == Outcome(s3, AdvanceR(NowPlaying(song))) by {
      ScheduledStep(s2, disk, false);
    }
    RunThree(s, e1, e2, e3);
  }

  /** A second /leave finds no connection and changes nothing. */
  lemma LeaveTwice(s: State)
    ensures var first := Leave(s).state; Leave(first) == Outcome(first, NotInChannel)
  {
  }

  /** Songs queued while the connection is down stay queued: play_next goes
      idle without dropping them. */
  lemma DisconnectedKeepsQueue(s: State, disk: Disk, setupFails: bool)
    requires !s.link.Live() && s.scheduled > 0
    ensures var t := Run(s, [ScheduledAdvance(disk, setupFails)]);
      t.final.queue == s.queue && !t.final.busy && t.taken == []
  {
    assert [ScheduledAdvance(disk, setupFails)][1..] == [];
  }

  /** A play_next that was scheduled earlier and runs while a track plays
      (because a /play in between started one) takes the next song and
      drops it, since the voice client refuses a second track, and clears
      busy although a track is still playing. */
  lemma StaleAdvanceDropsSong(s: State, disk: Disk)
    requires s.link.Live() && s.playing && s.scheduled > 0 && s.queue != []
    ensures var o := Step(s, ScheduledAdvance(disk, false));
      && o.reply == AdvanceR(if Exists(disk, s.queue[0]) then PlaybackFailed(s.queue[0]) else FileMissing(s.queue[0]))
      && o.state.queue == s.queue[1..] && !o.state.busy && o.state.playing
  {
  }
}
