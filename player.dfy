/** The bot's playback state as one object: the module globals `song_queue`,
    `bot_is_playing` and `current_vc` become the fields `queue`, `busy` and
    `link`; `playing` stands for the voice client's player, `owed` for the
    callbacks stopped players still owe, and `scheduled` for the play_next
    tasks waiting on the event loop. Every handler that updates them in
    place becomes a method. Each method is proved to move
    the object exactly as the matching transition of `Playback` does. */
module Bot {
  import opened Wrappers
  import opened Text
  import opened Files
  import opened Playback
  import QueueListing

  class Player {
    var queue: seq<string>
    var busy: bool
    var link: VoiceLink
    var playing: bool
    var owed: nat
    var scheduled: nat

    /** The object's state as a value. */
    function Model(): State
      reads this
    {
      State(queue, busy, link, playing, owed, scheduled)
    }

    ghost predicate Valid()
      reads this
    {
      Inv(Model())
    }

    constructor ()
      ensures Model() == Initial && Valid()
    {
      queue, busy, link, playing, owed, scheduled := [], false, NoClient, false, 0, 0;
    }

    /** `current_vc.stop()` */
    method HaltPlayer()
      modifies this
      ensures Model() == Halt(old(Model()))
      ensures old(Valid()) ==> Valid()
    {
      if playing {
        playing := false;
        owed := owed + 1;
      }
    }

    /** The drain loop of /stop and /leave: take songs off the queue one at a
        time until it is empty, counting them. */
    method Drain() returns (count: nat)
      modifies this
      ensures queue == [] && count == |old(queue)|
      ensures busy == old(busy) && link == old(link) && playing == old(playing)
      ensures owed == old(owed) && scheduled == old(scheduled)
      ensures old(Valid()) ==> Valid()
    {
      count := 0;
      while queue != []
        invariant count + |queue| == |old(queue)|
        invariant queue == old(queue)[count..]
        invariant busy == old(busy) && link == old(link) && playing == old(playing)
        invariant owed == old(owed) && scheduled == old(scheduled)
        decreases |queue|
      {
        queue := queue[1..];
        count := count + 1;
      }
    }

    /** play_next */
    method PlayNext(disk: Disk, setupFails: bool) returns (notice: Notice)
      modifies this
      ensures Outcome(Model(), notice) == Advance(old(Model()), disk, setupFails)
      ensures Valid()
    {
      if queue != [] && link.Live() {
        busy := true;
        var path := queue[0];
        queue := queue[1..];
        if !Exists(disk, path) {
          busy := false;
          scheduled := scheduled + 1;
          notice := FileMissing(path);
        } else if setupFails || playing {
          busy := false;
          scheduled := scheduled + 1;
          notice := PlaybackFailed(path);
        } else {
          playing := true;
          notice := NowPlaying(path);
        }
      } else {
        busy := false;
        notice := QueueIdle;
      }
    }

    /** after_playing, the callback a player makes when it is done. */
    method AfterPlayingCallback(error: bool)
      modifies this
      ensures Model() == AfterPlaying(old(Model()), error)
      ensures Valid()
    {
      busy := false;
      scheduled := scheduled + 1;
    }

    /** The playing track finishes (or fails) and the player calls back. */
    method TrackEnds(error: bool)
      requires Valid() && playing
      modifies this
      ensures Model() == Step(old(Model()), TrackEnded(error)).state
      ensures Valid()
    {
      playing := false;
      AfterPlayingCallback(error);
    }

    /** A player that was told to stop delivers its callback. */
    method StoppedPlayerCallback(error: bool)
      requires Valid() && owed > 0
      modifies this
      ensures Model() == Step(old(Model()), StoppedPlayerDone(error)).state
      ensures Valid()
    {
      owed := owed - 1;
      AfterPlayingCallback(error);
    }

    /** A play_next task created earlier gets to run. */
    method RunScheduled(disk: Disk, setupFails: bool) returns (notice: Notice)
      requires Valid() && scheduled > 0
      modifies this
      ensures Outcome(Model(), AdvanceR(notice)) == Step(old(Model()), ScheduledAdvance(disk, setupFails))
      ensures Valid()
    {
      scheduled := scheduled - 1;
      notice := PlayNext(disk, setupFails);
    }

    /** /play */
    method Play(disk: Disk, name: string, inVoice: bool, sameChannel: bool, linkOk: bool, setupFails: bool)
      returns (reply: PlayReply)
      requires Valid()
      modifies this
      ensures Outcome(Model(), reply) == Request(old(Model()), disk, name, inVoice, sameChannel, linkOk, setupFails)
      ensures Valid()
    {
      if !inVoice {
        return NotInVoice;
      }
      if !link.Live() {
        if !linkOk {
          return JoinFailed;
        }
        // A new client: whatever played on the old one has been stopped.
        HaltPlayer();
        link := Client(true);
      } else if !sameChannel && !linkOk {
        return MoveFailed;
      }
      var path := SongPath(name);
      if !Exists(disk, path) || !IsFile(disk, path) {
        return NotFound(name);
      }
      queue := queue + [path];
      var length := |queue|;
      if !busy {
        var notice := PlayNext(disk, setupFails);
        reply := Added(name, length, Some(notice));
      } else {
        reply := Added(name, length, None);
      }
    }

    /** /stop */
    method StopAll() returns (reply: StopReply)
      requires Valid()
      modifies this
      ensures Outcome(Model(), reply) == Stop(old(Model()))
      ensures Valid()
    {
      if link.Live() {
        HaltPlayer();
        var count := Drain();
        busy := false;
        reply := Cleared(count);
      } else {
        reply := NotActive;
      }
    }

    /** /skip */
    method SkipCurrent() returns (reply: SkipReply)
      requires Valid()
      modifies this
      ensures Outcome(Model(), reply) == Skip(old(Model()))
      ensures Valid()
    {
      if link.Client? && playing {
        HaltPlayer();
        reply := Skipping;
      } else if link.Client? && busy {
        HaltPlayer();
        busy := false;
        scheduled := scheduled + 1;
        reply := ForcedSkip;
      } else {
        reply := NothingToSkip;
      }
    }

    /** /leave */
    method LeaveChannel() returns (reply: LeaveReply)
      requires Valid()
      modifies this
      ensures Outcome(Model(), reply) == Leave(old(Model()))
      ensures Valid()
    {
      if link.Live() {
        HaltPlayer();
        var count := Drain();
        busy := false;
        link := NoClient;
        reply := Left(count);
      } else {
        reply := NotInChannel;
      }
    }

    /** /queue: a snapshot of the pending songs, listed without consuming
        them. */
    method ShowQueue() returns (text: string)
      ensures text == QueueListing.QueueText(queue)
      ensures queue == [] ==> text == QueueListing.EmptyText
    {
      var snapshot := queue;
      text := QueueListing.QueueText(snapshot);
    }
  }
}
