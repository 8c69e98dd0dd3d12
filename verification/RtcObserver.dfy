/**
 The client's observer of the media engine, critical section by critical section. Its fields are the slots of two
 runs of the coalescing protocol, one for the local preview and one for the remote users, and every method is one
 step of one of them. Callers may interleave the methods freely, each callback p calling its own in turn.
 */
module RtcObserver {
  import opened Options
  import opened Bytes
  import opened Coalescer
  import Wire

  datatype Frame = Invalid | Valid(no: nat)

  /** The preview path is the protocol with one feed of one user. */
  const PREVIEW: UserId := 1
  const PREVIEW_FEED: FeedId := 0

  ghost function SlotOf(frame: Frame): map<UserId, nat> {
    if frame.Valid? then map[PREVIEW := frame.no] else map[]
  }

  class MeetingRtcObserver {
    var pendingPreview: Frame
    var previewScheduled: bool
    var pendingRemote: map<UserId, nat>
    var remoteScheduled: bool
    var feedToUser: map<FeedId, UserId>
    /** How many drains of either path are in the UI thread's event queue. */
    var previewEvents: nat
    var remoteEvents: nat
    /** The protocol runs so far, and where they have led. */
    ghost var previewSteps: seq<Step>
    ghost var preview: State
    ghost var remoteSteps: seq<Step>
    ghost var remote: State

    ghost predicate PreviewValid()
      reads this`pendingPreview, this`previewScheduled, this`previewEvents, this`preview, this`previewSteps
    {
      && Run(Coalescer.INITIAL, previewSteps) == Some(preview)
      && preview.slots == Slots(SlotOf(pendingPreview), previewScheduled) && preview.queued == previewEvents
      && preview.feeds == map[PREVIEW_FEED := PREVIEW]
      && forall f :: 0 <= f < |preview.stored| ==> preview.stored[f] == PREVIEW
    }

    ghost predicate RemoteValid()
      reads this`pendingRemote, this`remoteScheduled, this`remoteEvents, this`feedToUser
      reads this`remote, this`remoteSteps
    {
      && Run(Coalescer.INITIAL, remoteSteps) == Some(remote)
      && remote.slots == Slots(pendingRemote, remoteScheduled) && remote.queued == remoteEvents
      && remote.feeds == feedToUser
    }

    constructor ()
      ensures PreviewValid() && previewSteps == [Joined(PREVIEW_FEED, PREVIEW)]
      ensures RemoteValid() && remoteSteps == []
    {
      pendingPreview, previewScheduled, previewEvents := Invalid, false, 0;
      pendingRemote, remoteScheduled, remoteEvents, feedToUser := map[], false, 0, map[];
      preview, previewSteps := Next(Coalescer.INITIAL, Joined(PREVIEW_FEED, PREVIEW)), [Joined(PREVIEW_FEED, PREVIEW)];
      remote, remoteSteps := Coalescer.INITIAL, [];
      new;
      RunMore([], Coalescer.INITIAL, Joined(PREVIEW_FEED, PREVIEW));
      assert [] + [Joined(PREVIEW_FEED, PREVIEW)] == previewSteps;
    }

    /** The preview path has taken exactly this step. */
    twostate predicate PreviewStep(step: Step)
      reads this`pendingPreview, this`previewScheduled, this`previewEvents, this`preview, this`previewSteps
    {
      && PreviewValid()
      && Enabled(old(preview), step) && preview == Next(old(preview), step)
      && previewSteps == old(previewSteps) + [step]
    }

    twostate predicate RemoteStep(step: Step)
      reads this`pendingRemote, this`remoteScheduled, this`remoteEvents, this`feedToUser
      reads this`remote, this`remoteSteps
    {
      && RemoteValid()
      && Enabled(old(remote), step) && remote == Next(old(remote), step)
      && remoteSteps == old(remoteSteps) + [step]
    }

    ghost method TakePreviewStep(step: Step)
      requires Run(Coalescer.INITIAL, previewSteps) == Some(preview) && Enabled(preview, step)
      modifies this`preview, this`previewSteps
      ensures preview == Next(old(preview), step) && previewSteps == old(previewSteps) + [step]
      ensures Run(Coalescer.INITIAL, previewSteps) == Some(preview)
    {
      RunMore(previewSteps, preview, step);
      preview, previewSteps := Next(preview, step), previewSteps + [step];
    }

    ghost method TakeRemoteStep(step: Step)
      requires Run(Coalescer.INITIAL, remoteSteps) == Some(remote) && Enabled(remote, step)
      modifies this`remote, this`remoteSteps
      ensures remote == Next(old(remote), step) && remoteSteps == old(remoteSteps) + [step]
      ensures Run(Coalescer.INITIAL, remoteSteps) == Some(remote)
    {
      RunMore(remoteSteps, remote, step);
      remote, remoteSteps := Next(remote, step), remoteSteps + [step];
    }

    // The preview path

    /** on_video_frame begins; an invalid frame ends it at once. */
    method OnVideoFrame(frame: Frame) returns (entered: bool, ghost p: nat)
      requires PreviewValid()
      modifies this`preview, this`previewSteps
      ensures entered == frame.Valid? && p == |old(preview).producers|
      ensures if entered then PreviewStep(Arrive(PREVIEW_FEED)) else PreviewValid() && preview == old(preview)
    {
      p := |preview.producers|;
      if frame.Invalid? {
        return false, p;
      }
      TakePreviewStep(Arrive(PREVIEW_FEED));
      return true, p;
    }

    /** Its first critical section. Frames are numbered in the order they are stored. */
    method StorePreview(frame: Frame, ghost p: nat)
      requires PreviewValid() && p < |preview.producers| && preview.producers[p] == ToStore(PREVIEW_FEED)
      requires frame == Valid(|preview.stored|)
      modifies this`pendingPreview, this`preview, this`previewSteps
      ensures PreviewStep(Produce(p)) && pendingPreview == frame && preview.producers[p] == ToSchedule
    {
      TakePreviewStep(Produce(p));
      pendingPreview := frame;
    }

    /** The second one; true means a drain event must be posted. */
    method SchedulePreview(ghost p: nat) returns (post: bool)
      requires PreviewValid() && p < |preview.producers| && preview.producers[p] == ToSchedule
      modifies this`previewScheduled, this`preview, this`previewSteps
      ensures PreviewStep(Produce(p)) && (post <==> preview.producers[p] == ToPost)
      ensures previewScheduled && post == !old(previewScheduled)
    {
      TakePreviewStep(Produce(p));
      if previewScheduled {
        return false;
      }
      previewScheduled := true;
      return true;
    }

    /** The post itself. */
    method PostPreview(ghost p: nat)
      requires PreviewValid() && p < |preview.producers| && preview.producers[p] == ToPost
      modifies this`previewEvents, this`preview, this`previewSteps
      ensures PreviewStep(Produce(p)) && preview.producers[p] == Finished
      ensures previewEvents == old(previewEvents) + 1
    {
      TakePreviewStep(Produce(p));
      previewEvents := previewEvents + 1;
    }

    /** emit_preview's critical section, on the UI thread. */
    method TakePreview() returns (frame: Frame)
      requires PreviewValid() && previewEvents > 0 && preview.draining == map[]
      modifies this`pendingPreview, this`previewScheduled, this`previewEvents, this`preview, this`previewSteps
      ensures PreviewStep(Drain) && frame == old(pendingPreview) && preview.draining == SlotOf(frame)
      ensures pendingPreview == Invalid && !previewScheduled && previewEvents == old(previewEvents) - 1
    {
      TakePreviewStep(Drain);
      previewEvents := previewEvents - 1;
      frame := pendingPreview;
      pendingPreview, previewScheduled := Invalid, false;
    }

    /** The rest of it: the signal, unless there was no frame. */
    method EmitPreview(frame: Frame) returns (emitted: seq<Emission>)
      requires PreviewValid() && preview.draining == SlotOf(frame)
      modifies this`preview, this`previewSteps
      ensures if frame.Valid? then PreviewStep(Emit(PREVIEW)) else PreviewValid() && preview == old(preview)
      ensures preview.emitted == old(preview).emitted + emitted && preview.draining == map[]
      ensures emitted == if frame.Valid? then [Emission(PREVIEW, frame.no)] else []
    {
      if frame.Invalid? {
        return [];
      }
      TakePreviewStep(Emit(PREVIEW));
      return [Emission(PREVIEW, frame.no)];
    }

    method ClearPreview()
      requires PreviewValid()
      modifies this`pendingPreview, this`previewScheduled, this`preview, this`previewSteps
      ensures PreviewStep(Clear) && pendingPreview == Invalid && !previewScheduled
    {
      TakePreviewStep(Clear);
      pendingPreview, previewScheduled := Invalid, false;
    }

    /** No preview frame is stranded: one that is pending has a drain queued, or a callback still to ask for one. */
    lemma PreviewWakes()
      requires PreviewValid() && pendingPreview.Valid?
      ensures previewEvents > 0 || ToSchedule in preview.producers || ToPost in preview.producers
    {
      assert PREVIEW in preview.slots.pending;
      NoLostWakeup(previewSteps);
    }

    /** The preview shows frames in the order they were stored, none twice. */
    lemma PreviewInOrder(i: nat, j: nat)
      requires PreviewValid() && i < j < |preview.emitted|
      ensures preview.emitted[i].frame < preview.emitted[j].frame
    {
      EveryRunGood(previewSteps);
      EmittedOnce(previewSteps, i, j);
      assert Of(preview.stored, preview.emitted[i].frame, preview.emitted[i].user);
      assert Of(preview.stored, preview.emitted[j].frame, preview.emitted[j].user);
    }

    /** When the callbacks and the event queue have come to rest, the last frame stored was shown, or cleared. */
    lemma PreviewSettles()
      requires PreviewValid() && previewEvents == 0 && preview.draining == map[] && preview.stored != []
      requires forall p :: p in preview.producers ==> p == Finished
      ensures var last := |preview.stored| - 1;
              pendingPreview == Invalid && (Emission(PREVIEW, last) in preview.emitted || last in preview.discarded)
    {
      var last := |preview.stored| - 1;
      Quiescent(previewSteps, last);
      assert preview.stored[last] == PREVIEW;
      assert pendingPreview.Valid? ==> PREVIEW in SlotOf(pendingPreview);
    }

    // The remote path

    /** on_remote_video_frame begins. */
    method OnRemoteVideoFrame(feed: FeedId, frame: Frame) returns (entered: bool, ghost p: nat)
      requires RemoteValid()
      modifies this`remote, this`remoteSteps
      ensures entered == frame.Valid? && p == |old(remote).producers|
      ensures if entered then RemoteStep(Arrive(feed)) else RemoteValid() && remote == old(remote)
    {
      p := |remote.producers|;
      if frame.Invalid? {
        return false, p;
      }
      TakeRemoteStep(Arrive(feed));
      return true, p;
    }

    /** Its first critical section; false means the feed has no user and the callback is over. */
    method StoreRemote(feed: FeedId, frame: Frame, ghost p: nat) returns (stored: bool)
      requires RemoteValid() && p < |remote.producers| && remote.producers[p] == ToStore(feed)
      requires frame == Valid(|remote.stored|)
      modifies this`pendingRemote, this`remote, this`remoteSteps
      ensures RemoteStep(Produce(p)) && (stored <==> remote.producers[p] == ToSchedule)
      ensures stored == (feed in feedToUser && feedToUser[feed] != 0)
      ensures pendingRemote == if stored then old(pendingRemote)[feedToUser[feed] := frame.no] else old(pendingRemote)
    {
      TakeRemoteStep(Produce(p));
      var user: UserId := 0;
      if feed in feedToUser {
        user := feedToUser[feed];
      }
      if user == 0 {
        return false;
      }
      pendingRemote := pendingRemote[user := frame.no];
      return true;
    }

    method ScheduleRemote(ghost p: nat) returns (post: bool)
      requires RemoteValid() && p < |remote.producers| && remote.producers[p] == ToSchedule
      modifies this`remoteScheduled, this`remote, this`remoteSteps
      ensures RemoteStep(Produce(p)) && (post <==> remote.producers[p] == ToPost)
      ensures remoteScheduled && post == !old(remoteScheduled)
    {
      TakeRemoteStep(Produce(p));
      if remoteScheduled {
        return false;
      }
      remoteScheduled := true;
      return true;
    }

    method PostRemote(ghost p: nat)
      requires RemoteValid() && p < |remote.producers| && remote.producers[p] == ToPost
      modifies this`remoteEvents, this`remote, this`remoteSteps
      ensures RemoteStep(Produce(p)) && remote.producers[p] == Finished
      ensures remoteEvents == old(remoteEvents) + 1
    {
      TakeRemoteStep(Produce(p));
      remoteEvents := remoteEvents + 1;
    }

    /** emit_remote's critical section swaps the slots out. */
    method TakeRemote() returns (frames: map<UserId, nat>)
      requires RemoteValid() && remoteEvents > 0 && remote.draining == map[]
      modifies this`pendingRemote, this`remoteScheduled, this`remoteEvents, this`remote, this`remoteSteps
      ensures RemoteStep(Drain) && frames == remote.draining == old(pendingRemote)
      ensures pendingRemote == map[] && !remoteScheduled && remoteEvents == old(remoteEvents) - 1
    {
      TakeRemoteStep(Drain);
      remoteEvents := remoteEvents - 1;
      frames := pendingRemote;
      pendingRemote, remoteScheduled := map[], false;
    }

    /** One turn of the loop that follows: the signal, unless the user is 0. */
    method EmitOne(frames: map<UserId, nat>, user: UserId) returns (emitted: seq<Emission>)
      requires RemoteValid() && user in frames && user in remote.draining && remote.draining[user] == frames[user]
      modifies this`remote, this`remoteSteps
      ensures RemoteStep(Emit(user)) && remote.emitted == old(remote).emitted + emitted
      ensures emitted == if user == 0 then [] else [Emission(user, frames[user])]
    {
      TakeRemoteStep(Emit(user));
      return if user == 0 then [] else [Emission(user, frames[user])];
    }

    /** The loop, left alone: one signal for each user that had a frame, in whatever order, until none is left. */
    method EmitRemote(frames: map<UserId, nat>) returns (emitted: seq<Emission>)
      requires RemoteValid() && frames == remote.draining
      modifies this`remote, this`remoteSteps
      ensures RemoteValid() && remote.draining == map[]
      ensures remote.emitted == old(remote).emitted + emitted && remote.producers == old(remote).producers
      ensures forall e :: e in emitted <==> e.user != 0 && e.user in frames && e.frame == frames[e.user]
      ensures forall i, j :: 0 <= i < j < |emitted| ==> emitted[i].user != emitted[j].user
    {
      emitted := [];
      var todo := frames.Keys;
      while todo != {}
        invariant RemoteValid() && todo <= frames.Keys
        invariant remote.draining == map u | u in todo :: frames[u]
        invariant remote.emitted == old(remote).emitted + emitted && remote.producers == old(remote).producers
        invariant forall e :: e in emitted <==>
                    e.user != 0 && e.user in frames && e.user !in todo && e.frame == frames[e.user]
        invariant forall i, j :: 0 <= i < j < |emitted| ==> emitted[i].user != emitted[j].user
        decreases todo
      {
        var user :| user in todo;
        todo := todo - {user};
        assert forall i :: 0 <= i < |emitted| ==> emitted[i] in emitted;
        var more := EmitOne(frames, user);
        emitted := emitted + more;
      }
    }

    /** display is the joined user's display name read as an unsigned number, if it is one. */
    method OnRemoteUserJoined(feed: FeedId, display: Option<u64>)
      requires RemoteValid()
      modifies this`feedToUser, this`remote, this`remoteSteps
      ensures if display.None? || display.value == 0 then RemoteValid() && remote == old(remote)
              else RemoteStep(Joined(feed, Wire.ToSigned(display.value)))
      ensures feedToUser == if display.None? || display.value == 0 then old(feedToUser)
                            else old(feedToUser)[feed := Wire.ToSigned(display.value)]
      ensures feedToUser != old(feedToUser) ==> feed in feedToUser && feedToUser[feed] != 0
    {
      if display.None? || display.value == 0 {
        return;
      }
      TakeRemoteStep(Joined(feed, Wire.ToSigned(display.value)));
      feedToUser := feedToUser[feed := Wire.ToSigned(display.value)];
    }

    /** The departed user's slot and mapping go; 0 when the feed was not mapped. */
    method OnRemoteUserLeft(feed: FeedId) returns (user: UserId)
      requires RemoteValid()
      modifies this`pendingRemote, this`feedToUser, this`remote, this`remoteSteps
      ensures RemoteStep(Left(feed)) && user == if feed in old(feedToUser) then old(feedToUser)[feed] else 0
      ensures feedToUser == old(feedToUser) - {feed}
      ensures pendingRemote == if feed in old(feedToUser) then old(pendingRemote) - {user} else old(pendingRemote)
    {
      TakeRemoteStep(Left(feed));
      user := 0;
      if feed in feedToUser {
        user := feedToUser[feed];
        feedToUser := feedToUser - {feed};
        pendingRemote := pendingRemote - {user};
      }
    }

    /** reset: a clear of the preview path, then a reset of the remote one. */
    method Reset()
      requires PreviewValid() && RemoteValid()
      modifies this`pendingPreview, this`previewScheduled, this`preview, this`previewSteps
      modifies this`pendingRemote, this`remoteScheduled, this`feedToUser, this`remote, this`remoteSteps
      ensures PreviewStep(Clear) && RemoteStep(Coalescer.Reset)
      ensures pendingPreview == Invalid && !previewScheduled
      ensures pendingRemote == map[] && !remoteScheduled && feedToUser == map[]
    {
      ClearPreview();
      ResetRemote();
    }

    method ResetRemote()
      requires RemoteValid()
      modifies this`pendingRemote, this`remoteScheduled, this`feedToUser, this`remote, this`remoteSteps
      ensures RemoteStep(Coalescer.Reset) && pendingRemote == map[] && !remoteScheduled && feedToUser == map[]
    {
      TakeRemoteStep(Coalescer.Reset);
      pendingRemote, remoteScheduled, feedToUser := map[], false, map[];
    }

    /** No remote frame is stranded. */
    lemma RemoteWakes()
      requires RemoteValid() && pendingRemote != map[]
      ensures remoteEvents > 0 || ToSchedule in remote.producers || ToPost in remote.producers
    {
      NoLostWakeup(remoteSteps);
    }

    /** Nothing that the UI is still to be shown is ever stored under user 0. */
    lemma RemoteUsersReal()
      requires RemoteValid()
      ensures 0 !in pendingRemote && forall feed :: feed in feedToUser ==> feedToUser[feed] != 0
    {
      EveryRunGood(remoteSteps);
    }
  }
}
