/** Where an input may end up: what the tables of one handling imply for every list of answers. */
module InboundDestinations {
  import opened Effects
  import opened InboundTypes
  import opened InboundStories

  // ---- From the answer to the request back to the images --------------------------------------

  /** The same request, but for what is attached to it and the robot's description. */
  predicate SameRequest(a: Body, b: Body) {
    a == b.(attachments := a.attachments, metadata := a.metadata)
  }

  predicate Posts(e: Ending, i: nat) { i < |e.story| && e.story[i].Posted? }

  /** From `i` on, at most one request: that of `body`, saved in the record, counted, and not refused. */
  predicate PostsOnly(e: Ending, i: nat, r: Record, body: Body) {
    forall k :: i <= k < |e.story| && Posts(e, k) ==>
      && e.last.prepared == Some(e.story[k].body) && SameRequest(e.story[k].body, body)
      && !UploadsUsed(r) && e.last.uploadAttempts == WithUpload(r).uploadAttempts
      && forall j :: i <= j < |e.story| && Posts(e, j) ==> j == k
  }

  /** The input is still that of the record, and only a lookup is handed to Chat after its request. */
  predicate Follows(e: Ending, i: nat, r: Record, body: Body) {
    && i <= |e.story| && e.last.input == r.input && PostsOnly(e, i, r, body)
    && (e.end == Ok(Return(Chat)) ==> r.input.operation.Lookup?)
    && !(e.end.Ok? && e.end.value.Proceed?)
  }

  predicate Unposted(e: Ending, i: nat) {
    i <= |e.story| && forall k :: i <= k < |e.story| ==> !Posts(e, k)
  }

  lemma UnpostedLater(e: Ending, i: nat)
    requires HeardAt(e, i) && Unposted(e, i + 1)
    ensures Unposted(e, i)
  {
  }

  /** After the request. */
  predicate Afterwards(e: Ending, i: nat, r: Record) {
    && Unposted(e, i) && e.last.input == r.input && e.last.prepared == r.prepared
    && e.last.uploadAttempts == r.uploadAttempts
    && (e.end == Ok(Return(Chat)) ==> r.input.operation.Lookup?)
    && !(e.end.Ok? && e.end.value.Proceed?)
  }

  /** Every way in which a part ends is no request, and keeps the input. */
  lemma LeafAfterwards(e: Ending, i: nat, r: Record, n: Notice, status: nat, verdict: Verdict)
    requires || Shows(e, i, r, n) || Freezes(e, i, r, n) || Fails(e, i, r, status)
             || (Returns(e, i, r, verdict) && verdict != Chat)
    ensures Afterwards(e, i, r)
  {
  }

  lemma UnhandledAfterwards(e: Ending, i: nat, r: Record)
    requires UnhandledStory(e, i, r)
    ensures Afterwards(e, i, r)
  {
  }

  lemma FinishAfterwards(e: Ending, i: nat, r: Record, d: Decision)
    requires FinishStory(e, i, r, d)
    ensures Afterwards(e, i, r)
  {
    hide Suppressed, Presented, Shows, Freezes, UnhandledStory, Afterwards;
    if d.handled {
      LeafAfterwards(e, i, r, Presented(r.input, d), 0, Done);
    } else {
      UnhandledAfterwards(e, i, r);
    }
  }

  lemma ReplyAfterwards(e: Ending, i: nat, r: Record, groups: bool, d: Decision)
    requires ReplyStory(e, i, r, groups, d)
    ensures Afterwards(e, i, r)
  {
    hide FinishStory, Regroups, AfterReply, Afterwards;
    var s := AfterReply(r, d);
    AfterReplySame(r, d);
    if Regroups(s.input, groups, d) {
      FinishAfterwards(e, i + 1, s, What(e, i).decision);
      AfterwardsLater(e, i, s);
    } else {
      FinishAfterwards(e, i, s, d);
    }
    AfterwardsAs(e, i, s, r);
  }

  lemma AfterReplySame(r: Record, d: Decision)
    ensures var s := AfterReply(r, d);
            s.input == r.input && s.prepared == r.prepared && s.uploadAttempts == r.uploadAttempts
  {
  }

  lemma AfterwardsLater(e: Ending, i: nat, r: Record)
    requires HeardAt(e, i) && Afterwards(e, i + 1, r)
    ensures Afterwards(e, i, r)
  {
  }

  lemma AfterwardsAs(e: Ending, i: nat, s: Record, r: Record)
    requires Afterwards(e, i, s)
    requires s.input == r.input && s.prepared == r.prepared && s.uploadAttempts == r.uploadAttempts
    ensures Afterwards(e, i, r)
  {
  }

  lemma AnswerAfterwards(e: Ending, i: nat, r: Record, groups: bool, reply: Reply)
    requires AnswerStory(e, i, r, groups, reply)
    ensures Afterwards(e, i, r)
  {
    hide ReplyStory;
    if reply.Decided? { ReplyAfterwards(e, i, r, groups, reply.decision); }
  }

  lemma ConfirmAfterwards(e: Ending, i: nat, r: Record)
    requires ConfirmStory(e, i, r)
    ensures Unposted(e, i) && e.last.input == r.input
    ensures (e.end == Ok(Return(Chat)) ==> r.input.operation.Lookup?) && !(e.end.Ok? && e.end.value.Proceed?)
  {
    hide Freezes;
    match What(e, i).received
    case Some(true) =>
    case Some(false) => LeafAfterwards(e, i + 1, r, Notice(Some(UPLOAD_FAILED), false), 0, Done);
    case None => LeafAfterwards(e, i + 1, r, Notice(None, false), 0, Done);
  }

  lemma UploadFollows(e: Ending, i: nat, r: Record, groups: bool)
    requires UploadStory(e, i, r, groups) && r.prepared.Some?
    ensures Follows(e, i, r, r.prepared.value)
  {
    hide AnswerStory, ConfirmStory;
    if UploadsUsed(r) {
      ConfirmAfterwards(e, i, r);
    } else {
      AnswerAfterwards(e, i + 2, WithUpload(r), groups, What(e, i + 1).reply);
    }
  }

  lemma FollowsLater(e: Ending, i: nat, r: Record, s: Record, body: Body, other: Body)
    requires HeardAt(e, i) && Follows(e, i + 1, r, body) && SameRequest(body, other)
    requires s.input == r.input && s.uploadAttempts == r.uploadAttempts
    ensures Follows(e, i, s, other)
  {
  }

  lemma FollowsAs(e: Ending, i: nat, r: Record, s: Record, body: Body, other: Body)
    requires Follows(e, i, r, body) && SameRequest(body, other)
    requires s.input == r.input && s.uploadAttempts == r.uploadAttempts
    ensures Follows(e, i, s, other)
  {
  }

  lemma SubmitFollows(e: Ending, i: nat, r: Record, groups: bool, body: Body, files: Option<seq<nat>>,
                      wasPrepared: bool)
    requires SubmitStory(e, i, r, groups, body, files, wasPrepared)
    ensures Follows(e, i, r, body)
  {
    hide UploadStory, Follows;
    if Describes(r.input, wasPrepared) {
      var s := Saved(r, WithMetadata(body, What(e, i).metadata), files);
      UploadFollows(e, i + 1, s, groups);
      FollowsLater(e, i, s, r, s.prepared.value, body);
    } else {
      var s := Saved(r, body, files);
      UploadFollows(e, i, s, groups);
      FollowsAs(e, i, s, r, s.prepared.value, body);
    }
  }

  /** While images are fetched nothing is requested, and nothing becomes Chat's. */
  predicate Fetching(e: Ending, i: nat, r: Record) {
    && Unposted(e, i) && e.last.input == r.input && e.last.uploadAttempts == r.uploadAttempts
    && e.end != Ok(Return(Chat))
  }

  lemma FetchedFetches(e: Ending, i: nat, r: Record, body: Body, preflight: Option<Decision>, files: seq<File>,
                       failures: Option<Text>)
    requires FetchedStory(e, i, r, body, preflight, files, failures)
    ensures Fetching(e, i, r)
  {
    hide Weight, Contents, Freezes, Fetching;
    if failures.Some? || |files| != r.input.images {
      LeafFetching(e, i, r, Notice(Some(failures.GetOr(INCOMPLETE)), false));
    } else if Weight(files) > MAX_IMAGE_BYTES {
      LeafFetching(e, i, r, Notice(Some(TOO_MANY_BYTES), false));
    } else {
      OnwardFetching(e, i, r, body.(attachments := Some(Contents(files))), preflight);
    }
  }

  lemma LeafFetching(e: Ending, i: nat, r: Record, n: Notice)
    requires Freezes(e, i, r, n)
    ensures Fetching(e, i, r)
  {
  }

  lemma OnwardFetching(e: Ending, i: nat, r: Record, body: Body, preflight: Option<Decision>)
    requires GoesOn(e, i, r, body, preflight)
    ensures Fetching(e, i, r)
  {
  }

  lemma StagedFetches(e: Ending, i: nat, r: Record, body: Body, preflight: Option<Decision>)
    requires StagedStory(e, i, r, body, preflight)
    ensures Fetching(e, i, r)
  {
    hide FetchedStory;
    if What(e, i).fetched.Files? {
      FetchedFetches(e, i + 1, r, body, preflight, What(e, i).fetched.files, What(e, i).fetched.failures);
    }
  }

  lemma RoomFetches(e: Ending, i: nat, r: Record, body: Body, preflight: Option<Decision>)
    requires RoomStory(e, i, r, body, preflight)
    ensures Fetching(e, i, r)
  {
    hide StagedStory;
    if preflight.Some? && preflight.value.handled && !preflight.value.Commentable() {
    } else if r.input.images <= MAX_IMAGES {
      StagedFetches(e, i, r.(stageAttempts := r.stageAttempts + 1), body, preflight);
    }
  }

  lemma MediaFetches(e: Ending, i: nat, r: Record, body: Body, preflight: Option<Decision>)
    requires MediaStory(e, i, r, body, preflight)
    ensures Fetching(e, i, r)
  {
    hide RoomStory;
    if preflight.None? && body.operation == Create {
      RoomFetches(e, i + 1, r, body, Some(What(e, i).decision));
      UnpostedLater(e, i);
    } else {
      RoomFetches(e, i, r, body, preflight);
    }
  }

  lemma StageFollows(e: Ending, i: nat, r: Record, groups: bool, body: Body, preflight: Option<Decision>,
                     wasPrepared: bool)
    requires StageStory(e, i, r, groups, body, preflight, wasPrepared)
    ensures Follows(e, i, r, body)
  {
    hide MediaStory, SubmitStory;
    var mid: Ending :| mid.uid == e.uid && mid.story <= e.story && MediaStory(mid, i, r, body, preflight) &&
                       SubmitStaged(mid, e, groups, body, wasPrepared);
    MediaFetches(mid, i, r, body, preflight);
    if mid.end.Ok? && mid.end.value.Proceed? {
      SubmitFollows(e, |mid.story|, mid.last, groups, body, mid.end.value.body.attachments, wasPrepared);
      forall k | i <= k < |mid.story| ensures !Posts(e, k) { assert !Posts(mid, k); }
    }
  }

  /** Beyond the routing: at most one request, which is not that of a refused input. */
  lemma ExecuteFollows(e: Ending, i: nat, r: Record, groups: bool, body: Body, preflight: Option<Decision>,
                       wasPrepared: bool)
    requires ExecuteStory(e, i, r, groups, body, preflight, wasPrepared)
    ensures Follows(e, i, r, body) && (Refusal(r.input).Some? ==> Unposted(e, i))
  {
    hide StageStory, SubmitStory;
    if Refusal(r.input).Some? {
    } else if Stages(r, wasPrepared) {
      StageFollows(e, i, r, groups, body, preflight, wasPrepared);
    } else {
      SubmitFollows(e, i, r, groups, body, None, wasPrepared);
    }
  }

  // ---- The routing -----------------------------------------------------------------------------

  /** What a passed preflight means for the input. */
  predicate Admits(e: Ending, i: nat, r: Record, groups: bool, blocked: set<nat>, body: Body, wasPrepared: bool,
                   d: Decision)
  {
    && e.end.Ok? && e.end.value.Proceed? && e.end.value.preflight == Some(d) && Unposted(e, i)
    && var directed := e.end.value.body;
    && (if Versioned(r.input.operation) then
          && d.binding.Some? && d.binding.value.pin.Some? && !BlockedBy(directed, blocked)
          && directed == Directed(r.input, body, d.binding.value, wasPrepared)
          && e.last == Passed(Fixed(r, directed), d)
        else directed == body && e.last == Passed(r, d))
    && (r.input.operation != Unbind ==> Takes(e, i, r.input, groups, directed, d))
  }

  /** The binding takes comments, and its group, if it has one, was found active at the pinned generation. */
  predicate Takes(e: Ending, i: nat, input: Input, groups: bool, body: Body, d: Decision) {
    && (d.handled && !d.Commentable() ==> input.images == 0 && d.Grouped() && groups && input.group)
    && (!input.group && d.binding.Some? ==> !d.binding.value.privacy.NeedsRebind?)
    && (groups && input.group && d.binding.Some? ==>
          && d.Grouped() && HeardAt(e, i) && What(e, i).Checked?
          && var c := What(e, i).decision;
          c.binding.Some? && c.binding.value.groupActive && !Rotated(body, c))
  }

  /** The input ended before any request, and was not handed to Chat. */
  predicate Settles(e: Ending, i: nat, r: Record) {
    && Unposted(e, i) && e.last.input == r.input && e.end != Ok(Return(Chat))
    && !(e.end.Ok? && e.end.value.Proceed?)
  }

  lemma SettleEnds(e: Ending, i: nat, r: Record, groups: bool, body: Body, d: Decision)
    requires SettleStory(e, i, r, groups, body, d)
    ensures Settles(e, i, r) || (GoesOn(e, i, Passed(r, d), body, Some(d)) &&
              (r.input.operation != Unbind && d.handled && !d.Commentable() ==>
                 r.input.images == 0 && d.Grouped() && groups && r.input.group))
  {
  }

  lemma CheckEnds(e: Ending, i: nat, r: Record, groups: bool, body: Body, d: Decision)
    requires CheckStory(e, i, r, groups, body, d)
    ensures Settles(e, i, r) || (
              && GoesOn(e, i + 1, Passed(r, d), body, Some(d)) && Unposted(e, i)
              && (r.input.operation != Unbind && d.handled && !d.Commentable() ==>
                    r.input.images == 0 && d.Grouped() && groups && r.input.group)
              && What(e, i).decision.binding.Some? && What(e, i).decision.binding.value.groupActive
              && !Rotated(body, What(e, i).decision))
  {
    hide SettleStory, Rotated;
    var c := What(e, i).decision;
    if !Rotated(body, c) && c.binding.Some? && c.binding.value.groupActive {
      SettleEnds(e, i + 1, r, groups, body, d);
      UnpostedLater(e, i);
    }
  }

  lemma AcceptEnds(e: Ending, i: nat, r: Record, groups: bool, body: Body, d: Decision)
    requires AcceptStory(e, i, r, groups, body, d)
    ensures Settles(e, i, r) || (
              && |e.story| >= i && Unposted(e, i) && GoesOn(e, |e.story|, Passed(r, d), body, Some(d))
              && (r.input.operation != Unbind ==> Takes(e, i, r.input, groups, body, d)))
  {
    hide SettleStory, CheckStory, Rotated;
    var input := r.input;
    if input.operation == Unbind || d.binding.None? {
      SettleEnds(e, i, r, groups, body, d);
    } else if !input.group && d.binding.value.privacy.NeedsRebind? {
    } else if groups && input.group {
      if d.Grouped() { CheckEnds(e, i, r, groups, body, d); HeardCheck(e, i, r, groups, body, d); }
    } else {
      SettleEnds(e, i, r, groups, body, d);
    }
  }

  lemma HeardCheck(e: Ending, i: nat, r: Record, groups: bool, body: Body, d: Decision)
    requires CheckStory(e, i, r, groups, body, d)
    ensures HeardAt(e, i) && What(e, i).Checked?
  {
  }

  lemma AdmissionEnds(e: Ending, i: nat, r: Record, groups: bool, blocked: set<nat>, body: Body, wasPrepared: bool,
                      d: Decision)
    requires AdmissionStory(e, i, r, groups, blocked, body, wasPrepared, d)
    ensures Settles(e, i, r) || Admits(e, i, r, groups, blocked, body, wasPrepared, d)
  {
    hide AcceptStory, Takes, Directed, Settles;
    if !Versioned(r.input.operation) {
      AcceptEnds(e, i, r, groups, body, d);
      if !Settles(e, i, r) { assert Admits(e, i, r, groups, blocked, body, wasPrepared, d); }
    } else if d.binding.None? || d.binding.value.pin.None? ||
              (NamesIssue(r.input, wasPrepared) && d.binding.value.issue.None?) {
      FailSettles(e, i, r);
    } else {
      var directed := Directed(r.input, body, d.binding.value, wasPrepared);
      var fixed := Fixed(r, directed);
      if BlockedBy(directed, blocked) {
        DeferralSettles(e, i, fixed);
      } else {
        AcceptEnds(e, i, fixed, groups, directed, d);
      }
      SettlesAs(e, i, fixed, r);
    }
  }

  lemma FailSettles(e: Ending, i: nat, r: Record)
    requires Fails(e, i, r, 0)
    ensures Settles(e, i, r)
  {
  }

  lemma DeferralSettles(e: Ending, i: nat, r: Record)
    requires Returns(e, i, r, Deferred)
    ensures Settles(e, i, r)
  {
  }

  lemma SettlesAs(e: Ending, i: nat, r: Record, s: Record)
    requires s.input == r.input
    ensures Settles(e, i, r) ==> Settles(e, i, s)
  {
  }

  /** The preflight hands a message to Chat, answers the input, or admits it to the selected task. */
  lemma DestinedEnds(e: Ending, i: nat, r: Record, groups: bool, blocked: set<nat>, body: Body, wasPrepared: bool,
                     d: Decision)
    requires DestinedStory(e, i, r, groups, blocked, body, wasPrepared, d)
    ensures e.end == Ok(Return(Chat)) <==> !Changed(body, d) && DestinationOf(r.input, d) == ToChat
    ensures e.end == Ok(Return(Chat)) ==> HandsOff(e, i, r)
    ensures e.end.Ok? && e.end.value.Proceed? ==>
              !Changed(body, d) && Admits(e, i, r, groups, blocked, body, wasPrepared, d)
    ensures !(e.end.Ok? && e.end.value.Proceed?) ==> Unposted(e, i)
  {
    hide AdmissionStory, Admits;
    if !Changed(body, d) && DestinationOf(r.input, d).ToTask? {
      AdmissionEnds(e, i, r, groups, blocked, body, wasPrepared, d);
      AdmitsProceeds(e, i, r, groups, blocked, body, wasPrepared, d);
    }
  }

  lemma AdmitsProceeds(e: Ending, i: nat, r: Record, groups: bool, blocked: set<nat>, body: Body, wasPrepared: bool,
                       d: Decision)
    ensures Admits(e, i, r, groups, blocked, body, wasPrepared, d) ==> e.end.Ok? && e.end.value.Proceed?
  {
  }

  // ---- A whole handling --------------------------------------------------------------------------

  /** The body that a handling starts from. */
  function FirstBody(e: Ending, r: Record): Body
    requires HeardAt(e, 0) && What(e, 0).Scoped?
  {
    if r.prepared.Some? then r.prepared.value else NewBody(r.input, What(e, 0).scope)
  }

  /** The handling comes to its routing. */
  ghost predicate Routes(e: Ending, r: Record, groups: bool, blocked: set<nat>) {
    && HeardAt(e, 0) && What(e, 0).Scoped? && !BlockedBy(FirstBody(e, r), blocked)
    && !(r.prepared.Some? && Versioned(r.prepared.value.operation) && r.prepared.value.expected.None?)
    && RouteStory(e, 1, r, groups, blocked, FirstBody(e, r), r.prepared.Some?)
  }

  lemma BeginRoutes(e: Ending, r: Record, groups: bool, blocked: set<nat>)
    requires Handles(e, r, groups, blocked)
    ensures Routes(e, r, groups, blocked) || (Unposted(e, 0) && (e.end == Ok(Return(Chat)) ==> r.chatHandoff))
    ensures r.chatHandoff || r.notice.Some? ==> Unposted(e, 0)
    ensures !r.chatHandoff && r.notice.None? && r.prepared.None? ==> Routes(e, r, groups, blocked)
  {
    hide RouteStory;
  }

  /** The two parts of a routing: the preflight, and what followed it. */
  lemma RouteParts(e: Ending, i: nat, r: Record, groups: bool, blocked: set<nat>, body: Body, wasPrepared: bool)
    returns (mid: Ending, d: Decision)
    requires RouteStory(e, i, r, groups, blocked, body, wasPrepared) && NeedsPreflight(r, groups)
    ensures mid.uid == e.uid && mid.story <= e.story && ExecuteRouted(mid, e, groups, wasPrepared)
    ensures HeardAt(e, i) && HeardAt(mid, i) && What(e, i) == What(mid, i) == Routed(d)
    ensures DestinedStory(mid, i + 1, r, groups, blocked, body, wasPrepared, d)
  {
    hide ExecuteRouted, DestinedStory;
    mid :| mid.uid == e.uid && mid.story <= e.story && PreflightStory(mid, i, r, groups, blocked, body, wasPrepared) &&
           ExecuteRouted(mid, e, groups, wasPrepared);
    d := What(mid, i).decision;
  }

  /** An input that no task takes ends as its destination says; nothing else becomes Chat's without a request. */
  lemma RouteDecides(e: Ending, i: nat, r: Record, groups: bool, blocked: set<nat>, body: Body, wasPrepared: bool)
    requires RouteStory(e, i, r, groups, blocked, body, wasPrepared) && NeedsPreflight(r, groups)
    ensures HeardAt(e, i) && What(e, i).Routed?
    ensures var d := What(e, i).decision;
            && (!Changed(body, d) && !DestinationOf(r.input, d).ToTask? ==>
                  ArrivesAt(e, i + 1, r, DestinationOf(r.input, d)))
            && (e.end == Ok(Return(Chat)) && !r.input.operation.Lookup? ==>
                  !Changed(body, d) && DestinationOf(r.input, d) == ToChat)
  {
    hide DestinationOf, ExecuteStory, AdmissionStory, Changed, ArrivesAt;
    var mid, d := RouteParts(e, i, r, groups, blocked, body, wasPrepared);
    DestinedEnds(mid, i + 1, r, groups, blocked, body, wasPrepared, d);
    if mid.end.Ok? && mid.end.value.Proceed? {
      AdmitsInput(mid, i + 1, r, groups, blocked, body, wasPrepared, d);
      ExecuteFollows(e, |mid.story|, mid.last, groups, mid.end.value.body, mid.end.value.preflight, wasPrepared);
    }
    if !DestinationOf(r.input, d).ToTask? && !Changed(body, d) {
      Arrives(mid, i + 1, r, DestinationOf(r.input, d));
    }
  }

  lemma AdmitsInput(e: Ending, i: nat, r: Record, groups: bool, blocked: set<nat>, body: Body, wasPrepared: bool,
                    d: Decision)
    requires Admits(e, i, r, groups, blocked, body, wasPrepared, d)
    ensures e.last.input == r.input && e.last.uploadAttempts == r.uploadAttempts
  {
  }

  lemma Arrives(e: Ending, i: nat, r: Record, to: Destination)
    requires ArrivesAt(e, i, r, to)
    ensures !(e.end.Ok? && e.end.value.Proceed?)
  {
  }

  /**
   * A message is handed to Chat exactly when nothing was selected for it, the
   * preflight did not handle it, no binding claims it, and it is not refused.
   */
  lemma ChatIffUnclaimed(e: Ending, r: Record, groups: bool, blocked: set<nat>)
    requires Handles(e, r, groups, blocked) && r.input.operation == Message && !r.chatHandoff && r.notice.None?
    requires Coherent(r)
    ensures e.end == Ok(Return(Chat)) <==>
            && r.prepared.None? && HeardAt(e, 1) && What(e, 1).Routed?
            && var d := What(e, 1).decision; !d.handled && d.binding.None? && Refusal(r.input).None?
    ensures e.end == Ok(Return(Chat)) ==> |e.story| == 2 && e.last == r.(chatHandoff := true)
  {
    hide RouteStory, Handles;
    BeginRoutes(e, r, groups, blocked);
    if Routes(e, r, groups, blocked) {
      if NeedsPreflight(r, groups) {
        RouteDecides(e, 1, r, groups, blocked, FirstBody(e, r), r.prepared.Some?);
      } else {
        PreparedRoute(e, r, groups, blocked);
      }
    }
  }

  lemma PreparedRoute(e: Ending, r: Record, groups: bool, blocked: set<nat>)
    requires Routes(e, r, groups, blocked) && !NeedsPreflight(r, groups)
    ensures ExecuteStory(e, 1, r, groups, FirstBody(e, r), None, r.prepared.Some?)
    ensures Follows(e, 1, r, FirstBody(e, r)) && (Refusal(r.input).Some? ==> Unposted(e, 1))
  {
    hide ExecuteStory;
    ExecuteFollows(e, 1, r, groups, FirstBody(e, r), None, r.prepared.Some?);
  }

  /**
   * What no task takes is answered once, and the record keeps the answer: a
   * refused message by its refusal, everything else in the service's words, and
   * an unbind without any by saying that nothing was bound.
   */
  lemma SaysAsDecided(e: Ending, r: Record, groups: bool, blocked: set<nat>)
    requires Handles(e, r, groups, blocked) && !r.chatHandoff && r.notice.None? && r.prepared.None?
    requires NeedsPreflight(r, groups)
    ensures HeardAt(e, 1) && What(e, 1).Routed?
    ensures var d := What(e, 1).decision;
            d.binding.None? && (d.handled || r.input.operation == Unbind || Refusal(r.input).Some?) &&
            (d.handled || Versioned(r.input.operation)) ==>
              && |e.story| == 3 && e.end == Ok(Return(Done)) && e.last.notice.Some?
              && e.last == r.(notice := e.last.notice) && NoticedOf(e.story[2], e.uid, e.last.notice.value)
              && (if r.input.operation == Message && !d.handled then
                    e.last.notice.value == Notice(Refusal(r.input), false)
                  else
                    && e.last.notice.value.silent == d.silent
                    && (d.notice.Some? || r.input.operation != Unbind ==> e.last.notice.value.text == d.notice)
                    && (d.notice.None? && r.input.operation == Unbind ==> e.last.notice.value.text == Some(NOT_BOUND)))
  {
    hide RouteStory, Handles;
    BeginRoutes(e, r, groups, blocked);
    RouteDecides(e, 1, r, groups, blocked, FirstBody(e, r), false);
  }

  // ---- The request -------------------------------------------------------------------------------

  /** What the preflight of this handling said of the request that was made. */
  predicate Admitted(e: Ending, r: Record, groups: bool, body: Body) {
    && HeardAt(e, 1) && What(e, 1).Routed?
    && var d := What(e, 1).decision;
    && (Versioned(r.input.operation) ==> d.binding.Some? && body.expected.Some? && d.binding.value.pin == body.expected)
    && (r.input.operation != Unbind ==> Takes(e, 2, r.input, groups, body, d))
  }

  lemma TakesLater(mid: Ending, e: Ending, i: nat, input: Input, groups: bool, a: Body, b: Body, d: Decision)
    requires mid.uid == e.uid && mid.story <= e.story && Takes(mid, i, input, groups, a, d) && SameRequest(b, a)
    ensures Takes(e, i, input, groups, b, d)
  {
  }

  lemma NoPostBefore(mid: Ending, e: Ending, i: nat)
    requires mid.story <= e.story && Unposted(mid, i) && forall j :: 0 <= j < i ==> !Posts(e, j)
    ensures forall j: nat :: j < |mid.story| ==> !Posts(e, j)
  {
    forall j: nat | j < |mid.story| ensures !Posts(e, j) {
      if j >= i { assert !Posts(mid, j); }
    }
  }

  /** The admitted body is pinned to the binding that was named, and else, unless it names a task, unchanged. */
  lemma AdmitsBody(e: Ending, i: nat, r: Record, groups: bool, blocked: set<nat>, body: Body, wasPrepared: bool,
                   d: Decision)
    requires Admits(e, i, r, groups, blocked, body, wasPrepared, d)
    ensures e.end.Ok? && e.end.value.Proceed? && Unposted(e, i)
    ensures var directed := e.end.value.body;
            && (Versioned(r.input.operation) ==>
                  && d.binding.Some? && directed.expected.Some? && d.binding.value.pin == directed.expected
                  && !BlockedBy(directed, blocked))
            && directed == body.(expected := directed.expected, issue := directed.issue)
            && (!NamesIssue(r.input, wasPrepared) ==> directed.issue == body.issue)
            && (r.input.operation != Unbind ==> Takes(e, i, r.input, groups, directed, d))
  {
    hide Takes, Unposted, Passed, Fixed;
  }

  /** The one request, seen from an earlier position on, and for the record as it was there. */
  lemma FollowsEarlier(e: Ending, i: nat, m: nat, r: Record, s: Record, body: Body, k: nat)
    requires Follows(e, m, s, body) && Posts(e, k) && i <= m && forall j: nat :: j < m ==> !Posts(e, j)
    requires s.input == r.input && s.uploadAttempts == r.uploadAttempts
    ensures Follows(e, i, r, e.story[k].body) && SameRequest(e.story[k].body, body)
  {
  }

  lemma RoutedRequest(e: Ending, r: Record, groups: bool, blocked: set<nat>, k: nat)
    requires Routes(e, r, groups, blocked) && NeedsPreflight(r, groups) && Posts(e, k)
    ensures Admitted(e, r, groups, e.story[k].body) && Refusal(r.input).None? && Follows(e, 1, r, e.story[k].body)
    ensures Versioned(r.input.operation) ==> e.story[k].body.expected.Some? && !BlockedBy(e.story[k].body, blocked)
    ensures var first := FirstBody(e, r).(expected := e.story[k].body.expected, issue := e.story[k].body.issue);
            SameRequest(e.story[k].body, first)
  {
    hide ExecuteStory, DestinedStory, Takes, Follows, Admits, Unposted;
    var body := FirstBody(e, r);
    var mid, d := RouteParts(e, 1, r, groups, blocked, body, r.prepared.Some?);
    DestinedEnds(mid, 2, r, groups, blocked, body, r.prepared.Some?, d);
    if mid.end.Ok? && mid.end.value.Proceed? {
      var directed := mid.end.value.body;
      AdmitsInput(mid, 2, r, groups, blocked, body, r.prepared.Some?, d);
      AdmitsBody(mid, 2, r, groups, blocked, body, r.prepared.Some?, d);
      NoPostBefore(mid, e, 2);
      ExecuteFollows(e, |mid.story|, mid.last, groups, directed, mid.end.value.preflight, r.prepared.Some?);
      FollowsEarlier(e, 1, |mid.story|, r, mid.last, directed, k);
      RefusedUnposted(e, |mid.story|, k);
      if r.input.operation != Unbind { TakesLater(mid, e, 2, r.input, groups, directed, e.story[k].body, d); }
    } else {
      NoPostBefore(mid, e, 2);
    }
  }

  lemma RefusedUnposted(e: Ending, m: nat, k: nat)
    requires Posts(e, k) && forall j: nat :: j < m ==> !Posts(e, j)
    ensures !Unposted(e, m)
  {
  }

  /**
   * A handling makes at most one request.  It is neither that of a refused input
   * nor a fourth upload; a first request says what the message says, for whom
   * the robot speaks; a pinned one goes to the binding that the preflight of
   * this handling confirmed, which takes comments and whose group is active; and
   * none passes an earlier input of its binding.
   */
  lemma RequestIsAsDecided(e: Ending, r: Record, groups: bool, blocked: set<nat>, k: nat)
    requires Handles(e, r, groups, blocked) && Coherent(r) && Posts(e, k)
    ensures forall j: nat :: Posts(e, j) ==> j == k
    ensures e.last.prepared == Some(e.story[k].body)
    ensures e.last.uploadAttempts == r.uploadAttempts + (if r.input.images > 0 then 1 else 0)
    ensures !r.chatHandoff && r.notice.None? && Refusal(r.input).None? && !UploadsUsed(r)
    ensures var body := e.story[k].body;
            && body.operation == r.input.operation
            && (r.prepared.None? ==> HeardAt(e, 0) && What(e, 0).Scoped? && body.scope == What(e, 0).scope &&
                                     body.message == r.input.message && body.content == r.input.content)
            && (Versioned(r.input.operation) ==> body.expected.Some? && !BlockedBy(body, blocked))
            && (NeedsPreflight(r, groups) ==> Admitted(e, r, groups, body))
  {
    hide RouteStory, Handles, Admitted, Follows;
    BeginRoutes(e, r, groups, blocked);
    UnpostedNothing(e, k);
    var body := e.story[k].body;
    if NeedsPreflight(r, groups) {
      RoutedRequest(e, r, groups, blocked, k);
      FollowsMeans(e, r, body, k);
    } else {
      PreparedRoute(e, r, groups, blocked);
      FollowsMeans(e, r, FirstBody(e, r), k);
    }
  }

  lemma UnpostedNothing(e: Ending, k: nat)
    requires Posts(e, k)
    ensures !Unposted(e, 0)
  {
  }

  lemma FollowsMeans(e: Ending, r: Record, body: Body, k: nat)
    requires Follows(e, 1, r, body) && Posts(e, k) && !Posts(e, 0)
    ensures forall j: nat :: Posts(e, j) ==> j == k
    ensures e.last.prepared == Some(e.story[k].body) && SameRequest(e.story[k].body, body)
    ensures !UploadsUsed(r) && e.last.uploadAttempts == WithUpload(r).uploadAttempts
    ensures !Unposted(e, 1)
  {
  }

  // ---- What came back ------------------------------------------------------------------------------

  /** The request at `k` and its answer; the record was then `s`, as far as its answer concerns it. */
  predicate AnsweredAs(e: Ending, k: nat, r: Record, s: Record, groups: bool) {
    && s.input == r.input && s.notice == r.notice && s.mediaCommitted == r.mediaCommitted
    && Posts(e, k) && s.prepared == Some(e.story[k].body)
    && HeardAt(e, k + 1) && What(e, k + 1).Replied? && AnswerStory(e, k + 2, s, groups, What(e, k + 1).reply)
  }

  ghost predicate Answers(e: Ending, i: nat, r: Record, groups: bool) {
    forall k :: i <= k < |e.story| && Posts(e, k) ==> exists s: Record :: AnsweredAs(e, k, r, s, groups)
  }

  lemma UploadAnswers(e: Ending, i: nat, r: Record, groups: bool)
    requires UploadStory(e, i, r, groups) && r.prepared.Some?
    ensures Answers(e, i, r, groups)
    ensures forall k :: i <= k < |e.story| && Posts(e, k) ==> r.prepared == Some(e.story[k].body)
  {
    hide AnswerStory, ConfirmStory, Afterwards;
    if UploadsUsed(r) {
      ConfirmAfterwards(e, i, r);
    } else {
      AnswerAfterwards(e, i + 2, WithUpload(r), groups, What(e, i + 1).reply);
      AfterwardsUnposted(e, i + 2, WithUpload(r));
      assert AnsweredAs(e, i, r, WithUpload(r), groups);
    }
  }

  lemma AfterwardsUnposted(e: Ending, i: nat, r: Record)
    requires Afterwards(e, i, r)
    ensures Unposted(e, i)
  {
  }

  lemma AnswersAs(e: Ending, i: nat, m: nat, s: Record, r: Record, groups: bool)
    requires Answers(e, m, s, groups) && forall k :: i <= k < m && k < |e.story| ==> !Posts(e, k)
    requires s.input == r.input && s.notice == r.notice && s.mediaCommitted == r.mediaCommitted
    ensures Answers(e, i, r, groups)
  {
    hide AnswerStory;
    forall k | i <= k < |e.story| && Posts(e, k) ensures exists t: Record :: AnsweredAs(e, k, r, t, groups) {
      var t: Record :| AnsweredAs(e, k, s, t, groups);
      assert AnsweredAs(e, k, r, t, groups);
    }
  }

  lemma SubmitAnswers(e: Ending, i: nat, r: Record, groups: bool, body: Body, files: Option<seq<nat>>,
                      wasPrepared: bool)
    requires SubmitStory(e, i, r, groups, body, files, wasPrepared)
    ensures Answers(e, i, r, groups)
    ensures forall k :: i <= k < |e.story| && Posts(e, k) ==>
              e.story[k].body.attachments == if files.Some? then files else body.attachments
  {
    hide UploadStory, Answers;
    if Describes(r.input, wasPrepared) {
      var s := Saved(r, WithMetadata(body, What(e, i).metadata), files);
      UploadAnswers(e, i + 1, s, groups);
      AnswersAs(e, i, i + 1, s, r, groups);
    } else {
      var s := Saved(r, body, files);
      UploadAnswers(e, i, s, groups);
      AnswersAs(e, i, i, s, r, groups);
    }
  }

  // ---- Images ------------------------------------------------------------------------------------

  /** The images arrived: all of them, no more than five, and not too large together. */
  predicate Arrived(f: Event, input: Input, attachments: seq<nat>) {
    && f.Heard? && f.what.Staged? && f.what.fetched.Files? && f.what.fetched.failures.None?
    && |f.what.fetched.files| == input.images <= MAX_IMAGES && Weight(f.what.fetched.files) <= MAX_IMAGE_BYTES
    && attachments == Contents(f.what.fetched.files)
  }

  ghost predicate ArrivedFrom(e: Ending, i: nat, input: Input, attachments: Option<seq<nat>>) {
    attachments.Some? && exists j :: i <= j < |e.story| && Arrived(e.story[j], input, attachments.value)
  }

  lemma RoomArrives(e: Ending, i: nat, r: Record, body: Body, preflight: Option<Decision>)
    requires RoomStory(e, i, r, body, preflight) && e.end.Ok? && e.end.value.Proceed?
    ensures e.last == r.(stageAttempts := r.stageAttempts + 1)
    ensures ArrivedFrom(e, i, r.input, e.end.value.body.attachments)
  {
    hide Weight, Contents;
    assert Arrived(e.story[i], r.input, e.end.value.body.attachments.value);
  }

  lemma MediaArrives(e: Ending, i: nat, r: Record, body: Body, preflight: Option<Decision>)
    requires MediaStory(e, i, r, body, preflight) && e.end.Ok? && e.end.value.Proceed?
    ensures e.last == r.(stageAttempts := r.stageAttempts + 1)
    ensures ArrivedFrom(e, i, r.input, e.end.value.body.attachments)
  {
    hide RoomStory, Arrived;
    if preflight.None? && body.operation == Create {
      RoomArrives(e, i + 1, r, body, Some(What(e, i).decision));
    } else {
      RoomArrives(e, i, r, body, preflight);
    }
  }

  lemma ArrivedLater(mid: Ending, e: Ending, i: nat, input: Input, attachments: Option<seq<nat>>)
    requires ArrivedFrom(mid, i, input, attachments) && mid.story <= e.story
    ensures ArrivedFrom(e, i, input, attachments)
  {
    hide Arrived;
    var j :| i <= j < |mid.story| && Arrived(mid.story[j], input, attachments.value);
    assert e.story[j] == mid.story[j];
  }

  lemma StageAnswers(e: Ending, i: nat, r: Record, groups: bool, body: Body, preflight: Option<Decision>,
                     wasPrepared: bool)
    requires StageStory(e, i, r, groups, body, preflight, wasPrepared)
    ensures Answers(e, i, r, groups)
    ensures forall k :: i <= k < |e.story| && Posts(e, k) ==> ArrivedFrom(e, i, r.input, e.story[k].body.attachments)
  {
    hide MediaStory, SubmitStory, Answers, ArrivedFrom;
    var mid: Ending :| mid.uid == e.uid && mid.story <= e.story && MediaStory(mid, i, r, body, preflight) &&
                       SubmitStaged(mid, e, groups, body, wasPrepared);
    MediaFetches(mid, i, r, body, preflight);
    if mid.end.Ok? && mid.end.value.Proceed? {
      MediaArrives(mid, i, r, body, preflight);
      ArrivedLater(mid, e, i, r.input, mid.end.value.body.attachments);
      ArrivedSome(mid, i, r.input, mid.end.value.body.attachments);
      SubmitAnswers(e, |mid.story|, mid.last, groups, body, mid.end.value.body.attachments, wasPrepared);
      forall k | i <= k < |mid.story| ensures !Posts(e, k) { assert !Posts(mid, k); }
      AnswersAs(e, i, |mid.story|, mid.last, r, groups);
    } else {
      UnpostedAnswers(e, i, r, groups);
    }
  }

  lemma ArrivedSome(e: Ending, i: nat, input: Input, attachments: Option<seq<nat>>)
    requires ArrivedFrom(e, i, input, attachments)
    ensures attachments.Some?
  {
  }

  lemma UnpostedAnswers(e: Ending, i: nat, r: Record, groups: bool)
    requires Unposted(e, i)
    ensures Answers(e, i, r, groups)
  {
  }

  lemma ExecuteAnswers(e: Ending, i: nat, r: Record, groups: bool, body: Body, preflight: Option<Decision>,
                       wasPrepared: bool)
    requires ExecuteStory(e, i, r, groups, body, preflight, wasPrepared)
    ensures Answers(e, i, r, groups)
    ensures forall k :: i <= k < |e.story| && Posts(e, k) ==>
              if Stages(r, wasPrepared) then ArrivedFrom(e, i, r.input, e.story[k].body.attachments)
              else e.story[k].body.attachments == body.attachments
  {
    hide StageStory, SubmitStory, Answers, ArrivedFrom;
    if Refusal(r.input).Some? {
      UnpostedAnswers(e, i, r, groups);
    } else if Stages(r, wasPrepared) {
      StageAnswers(e, i, r, groups, body, preflight, wasPrepared);
    } else {
      SubmitAnswers(e, i, r, groups, body, None, wasPrepared);
    }
  }

  /** Images not yet part of a prepared body are fetched in this handling. */
  predicate MustArrive(r: Record, groups: bool) {
    && r.input.images > 0
    && (|| (r.input.operation == Message && NeedsPreflight(r, groups))
        || (r.input.operation == Create && r.prepared.None?))
  }

  lemma AdmitsStages(e: Ending, i: nat, r: Record, groups: bool, blocked: set<nat>, body: Body, wasPrepared: bool,
                     d: Decision)
    requires Admits(e, i, r, groups, blocked, body, wasPrepared, d) && NeedsPreflight(r, groups)
    requires wasPrepared == r.prepared.Some?
    ensures MustArrive(r, groups) ==> Stages(e.last, wasPrepared)
    ensures e.last.notice == r.notice && e.last.mediaCommitted == r.mediaCommitted
  {
  }

  /**
   * The images of a message are posted all together or not at all; the answer to
   * a request follows it and is that of the tables.
   */
  lemma RequestIsAnswered(e: Ending, r: Record, groups: bool, blocked: set<nat>, k: nat) returns (s: Record)
    requires Handles(e, r, groups, blocked) && Coherent(r) && Posts(e, k)
    ensures AnsweredAs(e, k, r, s, groups)
    ensures MustArrive(r, groups) ==> ArrivedFrom(e, 0, r.input, e.story[k].body.attachments)
  {
    hide ExecuteStory, DestinedStory, Admits, Unposted, AnsweredAs, ArrivedFrom, Handles;
    BeginRoutes(e, r, groups, blocked);
    UnpostedNothing(e, k);
    var body := FirstBody(e, r);
    if NeedsPreflight(r, groups) {
      var mid, d := RouteParts(e, 1, r, groups, blocked, body, r.prepared.Some?);
      DestinedEnds(mid, 2, r, groups, blocked, body, r.prepared.Some?, d);
      if mid.end.Ok? && mid.end.value.Proceed? {
        AdmitsInput(mid, 2, r, groups, blocked, body, r.prepared.Some?, d);
        AdmitsBody(mid, 2, r, groups, blocked, body, r.prepared.Some?, d);
        AdmitsStages(mid, 2, r, groups, blocked, body, r.prepared.Some?, d);
        NoPostBefore(mid, e, 2);
        ExecuteAnswers(e, |mid.story|, mid.last, groups, mid.end.value.body, mid.end.value.preflight, r.prepared.Some?);
        AnswersAs(e, 0, |mid.story|, mid.last, r, groups);
        if MustArrive(r, groups) { ArrivedEarlier(e, |mid.story|, r.input, e.story[k].body.attachments); }
      } else {
        NoPostBefore(mid, e, 2);
      }
    } else {
      ExecuteAnswers(e, 1, r, groups, body, None, r.prepared.Some?);
      AnswersAs(e, 0, 1, r, r, groups);
      if MustArrive(r, groups) { ArrivedEarlier(e, 1, r.input, e.story[k].body.attachments); }
    }
    s :| AnsweredAs(e, k, r, s, groups);
  }

  lemma ArrivedEarlier(e: Ending, m: nat, input: Input, attachments: Option<seq<nat>>)
    requires ArrivedFrom(e, m, input, attachments)
    ensures ArrivedFrom(e, 0, input, attachments)
  {
  }

  /**
   * What the answer to a request leads to: images that are refused for good are
   * explained and not tried again, other errors stand; the service's word on the
   * media is noted; a message that is not handled never becomes Chat's; and what
   * is handled is shown, unless its success shows elsewhere.
   */
  lemma AnswerIsHeeded(e: Ending, k: nat, r: Record, s: Record, groups: bool)
    requires AnsweredAs(e, k, r, s, groups) && r.notice.None?
    ensures match What(e, k + 1).reply
            case Refused(status) =>
              if r.input.images > 0 && status in {400, 409, 413} then e.end == Ok(Return(Done)) && e.last.notice.Some?
              else e.end == Thrown(status) && e.last.notice.None?
            case Decided(d) =>
              && e.last.mediaCommitted == (r.mediaCommitted || (r.input.images > 0 && d.comment))
              && (Regroups(r.input, groups, d) ==> HeardAt(e, k + 2) && What(e, k + 2).Regrouped?)
              && (!Regroups(r.input, groups, d) ==> Heeds(e, r.input, d))
  {
    hide Regroups, FinishStory, Heeds, AfterReply, KeepsAnswer;
    match What(e, k + 1).reply
    case Refused(_) =>
    case Decided(d) =>
      var t := AfterReply(s, d);
      AfterReplyNotes(s, d);
      if Regroups(t.input, groups, d) {
        FinishKeepsMedia(e, k + 3, t, What(e, k + 2).decision);
      } else {
        FinishKeepsMedia(e, k + 2, t, d);
        FinishHeeds(e, k + 2, t, d);
      }
  }

  lemma AfterReplyNotes(r: Record, d: Decision)
    ensures var s := AfterReply(r, d);
            && s.input == r.input && s.mediaCommitted == (r.mediaCommitted || (r.input.images > 0 && d.comment))
            && (r.notice.None? ==> s.notice.Some? == KeepsAnswer(r.input, d))
  {
  }

  /** How a handling ends on that decision. */
  predicate Heeds(e: Ending, input: Input, d: Decision) {
    && (!d.handled && input.operation == Message ==> e.end == Thrown(409))
    && (e.end == Ok(Return(Chat)) <==> !d.handled && input.operation.Lookup? && !input.explicitBinding)
    && (d.handled ==> e.end == Ok(Return(Done)))
    && (d.handled && !Suppressed(input, d) ==>
          && e.story != []
          && var f := e.story[|e.story| - 1];
          if KeepsAnswer(input, d) then NoticedOf(f, e.uid, Presented(input, d))
          else ToldOf(f, e.uid, Presented(input, d)))
  }

  lemma FinishKeepsMedia(e: Ending, i: nat, r: Record, d: Decision)
    requires FinishStory(e, i, r, d)
    ensures e.last.mediaCommitted == r.mediaCommitted
  {
    hide Suppressed, Presented, NoticedOf, ToldOf;
  }

  lemma FinishHeeds(e: Ending, i: nat, r: Record, d: Decision)
    requires FinishStory(e, i, r, d) && r.notice.Some? == KeepsAnswer(r.input, d)
    ensures Heeds(e, r.input, d)
  {
    hide Suppressed, Presented, NoticedOf, ToldOf;
  }
}
