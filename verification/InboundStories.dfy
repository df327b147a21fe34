/**
 * How one handling of a record goes, as a function of what is heard in it.
 *
 * Each predicate tells one part of a handling from position `i` of its story on:
 * what is asked next, what is done and said, the record that is left, and how
 * the part ends.  Only an effect that fails, or a relay that was stopped, may
 * cut a handling short.
 */
module InboundStories {
  import opened Effects
  import opened InboundTypes

  datatype Verdict = Done | Chat | Deferred

  /** Either `handleSerial` returns here, or it goes on with this body. */
  datatype Flow = Return(verdict: Verdict) | Proceed(body: Body, preflight: Option<Decision>)

  /** A handling of record `uid`, or a first part of it: its story, the record then, and how it ended. */
  datatype Ending = Ending(uid: nat, story: seq<Event>, last: Record, end: Outcome<Flow>)

  const MAX_IMAGES: nat := 5
  const MAX_IMAGE_BYTES: nat := 20 * 1024 * 1024
  const MAX_STAGINGS: nat := 3

  // ---- How a part may end -----------------------------------------------------------------

  predicate Fails(e: Ending, i: nat, r: Record, status: nat) {
    |e.story| == i && e.last == r && e.end == Thrown(status)
  }

  predicate Returns(e: Ending, i: nat, r: Record, verdict: Verdict) {
    |e.story| == i && e.last == r && e.end == Ok(Return(verdict))
  }

  predicate GoesOn(e: Ending, i: nat, r: Record, body: Body, preflight: Option<Decision>) {
    |e.story| == i && e.last == r && e.end == Ok(Proceed(body, preflight))
  }

  /** A notice is shown; a silent one, or one without text, is only an answer. */
  predicate ToldOf(f: Event, u: nat, n: Notice) {
    f == if n.Speaks() then Told(u, n.text.value) else Answered(u)
  }

  /** The same, for a notice that the record keeps. */
  predicate NoticedOf(f: Event, u: nat, n: Notice) {
    if n.Speaks() then f.RoutingNoticed? && f.uid == u && f.notice == n else f == Answered(u)
  }

  predicate Shows(e: Ending, i: nat, r: Record, n: Notice) {
    |e.story| == i + 1 && e.last == r && e.end == Ok(Return(Done)) && ToldOf(e.story[i], e.uid, n)
  }

  /** A notice that the record keeps, to be repeated. */
  predicate Freezes(e: Ending, i: nat, r: Record, n: Notice) {
    && |e.story| == i + 1 && e.last == r.(notice := Some(n)) && e.end == Ok(Return(Done))
    && NoticedOf(e.story[i], e.uid, n)
  }

  predicate HandsOff(e: Ending, i: nat, r: Record) {
    Returns(e, i, r.(chatHandoff := true), Chat)
  }

  predicate HeardAt(e: Ending, i: nat) {
    i < |e.story| && e.story[i].Heard? && e.story[i].uid == e.uid
  }

  function What(e: Ending, i: nat): Report
    requires HeardAt(e, i)
  {
    e.story[i].what
  }

  // ---- The answer to the request -------------------------------------------------------------

  /** Only a mutation whose success shows elsewhere may be suppressed, and no refusal. */
  predicate Suppressed(input: Input, d: Decision) {
    && d.suppress && d.canComment != Some(false)
    && (|| input.operation == Unbind
        || ((input.operation == Bind || input.operation == Create) && d.binding.Some?
            && (!d.binding.value.grouped || d.binding.value.groupActive)
            && (d.binding.value.privacy.NotPrivate? || d.binding.value.privacy.Active?)))
  }

  /** What is shown of a decision: a lookup that found a binding presents it, if the service said nothing. */
  function Presented(input: Input, d: Decision): Notice {
    if input.operation.Lookup? && d.binding.Some? && d.Commentable() && d.notice.None?
    then Notice(Some(d.binding.value.title), d.silent) else d.Shown()
  }

  predicate ResultStory(e: Ending, i: nat, r: Record, d: Decision) {
    if Suppressed(r.input, d) then Returns(e, i, r, Done)
    else if r.notice.Some? then Freezes(e, i, r, Presented(r.input, d))
    else Shows(e, i, r, Presented(r.input, d))
  }

  /** The service did not take the input: bound inputs conflict, commands are explained or become Chat's. */
  predicate UnhandledStory(e: Ending, i: nat, r: Record) {
    if r.input.operation == Message then Fails(e, i, r, 409)
    else if r.input.explicitBinding then Shows(e, i, r, Notice(Some(USE_BIND), false))
    else if !r.input.operation.Lookup? then Returns(e, i, r, Done)
    else HandsOff(e, i, r)
  }

  predicate FinishStory(e: Ending, i: nat, r: Record, d: Decision) {
    if d.handled then ResultStory(e, i, r, d) else UnhandledStory(e, i, r)
  }

  /** A grouped bind or create is answered only once the group was looked at. */
  predicate Regroups(input: Input, groups: bool, d: Decision) {
    && groups && input.group && d.Grouped() && d.canReconcile
    && (input.operation == Bind || input.operation == Create)
  }

  predicate RegroupStory(e: Ending, i: nat, r: Record, groups: bool, d: Decision) {
    if Regroups(r.input, groups, d) then
      HeardAt(e, i) && What(e, i).Regrouped? && FinishStory(e, i + 1, r, What(e, i).decision)
    else FinishStory(e, i, r, d)
  }

  /** The answers to `/help` and `/status` are kept. */
  predicate KeepsAnswer(input: Input, d: Decision) {
    d.handled && (input.operation == Lookup(Help) || input.operation == Lookup(Status))
  }

  /** The record once the answer is noted. */
  function AfterReply(r: Record, d: Decision): Record {
    r.(mediaCommitted := r.mediaCommitted || (r.input.images > 0 && d.comment),
       notice := if KeepsAnswer(r.input, d) then Some(d.Shown()) else r.notice)
  }

  predicate ReplyStory(e: Ending, i: nat, r: Record, groups: bool, d: Decision) {
    RegroupStory(e, i, AfterReply(r, d), groups, d)
  }

  // ---- The request -------------------------------------------------------------------------------

  /** The service refuses the images, or their task, for good. */
  predicate RefusesImages(input: Input, status: nat) {
    input.images > 0 && status in {400, 409, 413}
  }

  predicate AnswerStory(e: Ending, i: nat, r: Record, groups: bool, reply: Reply) {
    match reply
    case Decided(d) => ReplyStory(e, i, r, groups, d)
    case Refused(status) =>
      if RefusesImages(r.input, status) then
        Freezes(e, i, r, Notice(Some(if status == 409 then BINDING_CHANGED else FORMAT_REFUSED), false))
      else Fails(e, i, r, status)
  }

  /** The saved body is posted. */
  predicate PostStory(e: Ending, i: nat, r: Record, groups: bool) {
    && i < |e.story| && e.story[i].Posted? && e.story[i].uid == e.uid && r.prepared == Some(e.story[i].body)
    && HeardAt(e, i + 1)
    && What(e, i + 1).Replied? && AnswerStory(e, i + 2, r, groups, What(e, i + 1).reply)
  }

  /** The service has received an earlier upload: nothing more is sent. */
  predicate Commits(e: Ending, i: nat, r: Record) {
    && |e.story| == i + 1 && e.story[i] == Answered(e.uid)
    && e.last == r.(mediaCommitted := true) && e.end == Ok(Return(Done))
  }

  predicate ConfirmStory(e: Ending, i: nat, r: Record) {
    && HeardAt(e, i) && What(e, i).Received?
    && match What(e, i).received
       case Some(true) => Commits(e, i + 1, r)
       case Some(false) => Freezes(e, i + 1, r, Notice(Some(UPLOAD_FAILED), false))
       case None => Fails(e, i + 1, r, 0)
  }

  function WithUpload(r: Record): Record {
    if r.input.images > 0 then r.(uploadAttempts := r.uploadAttempts + 1) else r
  }

  /** Three uploads of images are enough; then the service is only asked whether one arrived. */
  predicate UploadStory(e: Ending, i: nat, r: Record, groups: bool) {
    if UploadsUsed(r) then ConfirmStory(e, i, r) else PostStory(e, i, WithUpload(r), groups)
  }

  /** The complete body, in the record. */
  function Saved(r: Record, body: Body, files: Option<seq<nat>>): Record {
    r.(prepared := Some(if files.Some? then body.(attachments := files) else body),
       mediaPrepared := if files.Some? then Some(true) else r.mediaPrepared)
  }

  /** The first request for a private binding describes the robot. */
  predicate Describes(input: Input, wasPrepared: bool) {
    !wasPrepared && !input.group && (input.operation == Bind || input.operation == Create)
  }

  function WithMetadata(body: Body, metadata: Option<nat>): Body {
    if metadata.Some? then body.(metadata := metadata.value) else body
  }

  predicate SubmitStory(e: Ending, i: nat, r: Record, groups: bool, body: Body, files: Option<seq<nat>>,
                        wasPrepared: bool) {
    if Describes(r.input, wasPrepared) then
      && HeardAt(e, i) && What(e, i).Described?
      && UploadStory(e, i + 1, Saved(r, WithMetadata(body, What(e, i).metadata), files), groups)
    else UploadStory(e, i, Saved(r, body, files), groups)
  }

  // ---- Images -------------------------------------------------------------------------------------

  function Weight(files: seq<File>): nat {
    if files == [] then 0 else Weight(files[..|files| - 1]) + files[|files| - 1].size
  }

  lemma {:induction false} WeightGrows(files: seq<File>, i: nat)
    requires i <= |files|
    ensures Weight(files[..i]) <= Weight(files)
    decreases |files|
  {
    if i < |files| {
      assert files[..|files| - 1][..i] == files[..i];
      WeightGrows(files[..|files| - 1], i);
    } else {
      assert files[..i] == files;
    }
  }

  function Contents(files: seq<File>): (s: seq<nat>)
    ensures |s| == |files|
  {
    seq(|files|, k requires 0 <= k < |files| => files[k].content)
  }

  /** What was fetched is refused when an image is missing or all are too large; else it goes into the body. */
  predicate FetchedStory(e: Ending, i: nat, r: Record, body: Body, preflight: Option<Decision>, files: seq<File>,
                         failures: Option<Text>) {
    if failures.Some? || |files| != r.input.images then
      Freezes(e, i, r, Notice(Some(failures.GetOr(INCOMPLETE)), false))
    else if Weight(files) > MAX_IMAGE_BYTES then Freezes(e, i, r, Notice(Some(TOO_MANY_BYTES), false))
    else GoesOn(e, i, r, body.(attachments := Some(Contents(files))), preflight)
  }

  predicate StagedStory(e: Ending, i: nat, r: Record, body: Body, preflight: Option<Decision>) {
    && HeardAt(e, i) && What(e, i).Staged?
    && match What(e, i).fetched
       case Files(files, failures) => FetchedStory(e, i + 1, r, body, preflight, files, failures)
       case Missed(permanent, status) =>
         if !permanent && r.stageAttempts < MAX_STAGINGS then Fails(e, i + 1, r, status)
         else Freezes(e, i + 1, r, Notice(Some(NOT_RECEIVED), false))
  }

  predicate RoomStory(e: Ending, i: nat, r: Record, body: Body, preflight: Option<Decision>) {
    if preflight.Some? && preflight.value.handled && !preflight.value.Commentable() then
      Shows(e, i, r, preflight.value.Shown())
    else if r.input.images > MAX_IMAGES then Freezes(e, i, r, Notice(Some(TOO_MANY_IMAGES), false))
    else StagedStory(e, i, r.(stageAttempts := r.stageAttempts + 1), body, preflight)
  }

  /** A new task is asked for before its images are fetched; other inputs were asked about before. */
  predicate MediaStory(e: Ending, i: nat, r: Record, body: Body, preflight: Option<Decision>) {
    if preflight.None? && body.operation == Create then
      HeardAt(e, i) && What(e, i).Routed? && RoomStory(e, i + 1, r, body, Some(What(e, i).decision))
    else RoomStory(e, i, r, body, preflight)
  }

  /** The images are fetched: those of a new task, and those of a message whose media is not part of its body. */
  predicate Stages(r: Record, wasPrepared: bool) {
    && r.input.images > 0
    && ((!wasPrepared && r.input.operation == Create) ||
        (r.input.operation == Message && r.mediaPrepared == Some(false)))
  }

  /** Staging ended the handling, or its files are submitted. */
  predicate SubmitStaged(mid: Ending, e: Ending, groups: bool, body: Body, wasPrepared: bool) {
    if mid.end.Ok? && mid.end.value.Proceed? then
      SubmitStory(e, |mid.story|, mid.last, groups, body, mid.end.value.body.attachments, wasPrepared)
    else e == mid
  }

  /** The images are staged, and then the request is made. */
  ghost predicate StageStory(e: Ending, i: nat, r: Record, groups: bool, body: Body, preflight: Option<Decision>,
                             wasPrepared: bool) {
    exists mid: Ending :: mid.uid == e.uid && mid.story <= e.story && MediaStory(mid, i, r, body, preflight) &&
                          SubmitStaged(mid, e, groups, body, wasPrepared)
  }

  /** Beyond the routing: the refusal, the images, the request. */
  ghost predicate ExecuteStory(e: Ending, i: nat, r: Record, groups: bool, body: Body, preflight: Option<Decision>,
                               wasPrepared: bool) {
    if Refusal(r.input).Some? then Freezes(e, i, r, Notice(Refusal(r.input), false))
    else if Stages(r, wasPrepared) then StageStory(e, i, r, groups, body, preflight, wasPrepared)
    else SubmitStory(e, i, r, groups, body, None, wasPrepared)
  }

  // ---- The routing ----------------------------------------------------------------------------------

  function Passed(r: Record, d: Decision): Record {
    r.(quoteVerified := r.quoteVerified || (r.input.requireRobotQuote && d.Commentable()),
       preflightPending := if Versioned(r.input.operation) then false else r.preflightPending)
  }

  /** A binding that takes no comments is shown instead of asked, unless its group was just looked at. */
  predicate SettleStory(e: Ending, i: nat, r: Record, groups: bool, body: Body, d: Decision) {
    if r.input.operation != Unbind && d.handled && !d.Commentable()
       && (r.input.images > 0 || !(d.Grouped() && groups && r.input.group))
    then Shows(e, i, r, d.Shown())
    else GoesOn(e, i, Passed(r, d), body, Some(d))
  }

  /** The pinned generation is no longer that of the group's binding. */
  predicate Rotated(body: Body, c: Decision) {
    && Versioned(body.operation)
    && (c.binding.None? || c.binding.value.pin.None? || body.expected.None? ||
        c.binding.value.pin.value.generation != body.expected.value.generation)
  }

  /** A group that is not active is explained. */
  predicate CheckedStory(e: Ending, i: nat, r: Record, groups: bool, body: Body, d: Decision, checked: Decision) {
    if Rotated(body, checked) then Fails(e, i, r, 409)
    else if checked.binding.None? || !checked.binding.value.groupActive then
      Shows(e, i, r, if !d.Commentable() && d.notice.Some? then d.Shown() else checked.Shown())
    else SettleStory(e, i, r, groups, body, d)
  }

  /** The input's group is looked at. */
  predicate CheckStory(e: Ending, i: nat, r: Record, groups: bool, body: Body, d: Decision) {
    HeardAt(e, i) && What(e, i).Checked? && CheckedStory(e, i + 1, r, groups, body, d, What(e, i).decision)
  }

  /** Whether the binding takes the pinned input now. */
  predicate AcceptStory(e: Ending, i: nat, r: Record, groups: bool, body: Body, d: Decision) {
    var input := r.input;
    if input.operation == Unbind || d.binding.None? then SettleStory(e, i, r, groups, body, d)
    else if !input.group && d.binding.value.privacy.NeedsRebind? then
      Shows(e, i, r, Notice(Some(d.notice.GetOr(REBIND)), false))
    else if groups && input.group then
      if !d.Grouped() then Fails(e, i, r, 0) else CheckStory(e, i, r, groups, body, d)
    else SettleStory(e, i, r, groups, body, d)
  }

  /** The selected task is named only where a label, not the original text, becomes the content. */
  predicate NamesIssue(input: Input, wasPrepared: bool) {
    input.displayText && input.operation == Message && !wasPrepared
  }

  function Directed(input: Input, body: Body, view: BindingView, wasPrepared: bool): Body {
    var pinned := body.(expected := view.pin);
    if NamesIssue(input, wasPrepared) then pinned.(issue := view.issue) else pinned
  }

  /** The record with its first observed destination. */
  function Fixed(r: Record, body: Body): Record {
    r.(prepared := Some(body), preflightPending := true, mediaPrepared := Some(r.input.images == 0))
  }

  predicate BlockedBy(body: Body, blocked: set<nat>) {
    body.expected.Some? && body.expected.value.binding in blocked
  }

  predicate AdmissionStory(e: Ending, i: nat, r: Record, groups: bool, blocked: set<nat>, body: Body,
                           wasPrepared: bool, d: Decision) {
    if !Versioned(r.input.operation) then AcceptStory(e, i, r, groups, body, d)
    else if d.binding.None? || d.binding.value.pin.None? then Fails(e, i, r, 0)
    else if NamesIssue(r.input, wasPrepared) && d.binding.value.issue.None? then Fails(e, i, r, 0)
    else
      var directed := Directed(r.input, body, d.binding.value, wasPrepared);
      if BlockedBy(directed, blocked) then Returns(e, i, Fixed(r, directed), Deferred)
      else AcceptStory(e, i, Fixed(r, directed), groups, directed, d)
  }

  predicate Changed(body: Body, d: Decision) {
    body.expected.Some? && (d.binding.None? || d.binding.value.pin != body.expected)
  }

  /** An input that belongs to no task ends with a kept notice, or is Chat's. */
  predicate ArrivesAt(e: Ending, i: nat, r: Record, to: Destination) {
    match to
    case Says(n) => Freezes(e, i, r, n)
    case ToChat => HandsOff(e, i, r)
    case ToTask => false
  }

  /** Where the preflight's answer sends the input; a prepared one must not have lost its binding. */
  predicate DestinedStory(e: Ending, i: nat, r: Record, groups: bool, blocked: set<nat>, body: Body,
                          wasPrepared: bool, d: Decision) {
    if Changed(body, d) then Fails(e, i, r, 409)
    else if DestinationOf(r.input, d).ToTask? then AdmissionStory(e, i, r, groups, blocked, body, wasPrepared, d)
    else ArrivesAt(e, i, r, DestinationOf(r.input, d))
  }

  predicate PreflightStory(e: Ending, i: nat, r: Record, groups: bool, blocked: set<nat>, body: Body,
                           wasPrepared: bool) {
    && HeardAt(e, i) && What(e, i).Routed?
    && DestinedStory(e, i + 1, r, groups, blocked, body, wasPrepared, What(e, i).decision)
  }

  /** The preflight when one is due, then what follows it. */
  ghost predicate RouteStory(e: Ending, i: nat, r: Record, groups: bool, blocked: set<nat>, body: Body,
                             wasPrepared: bool) {
    if NeedsPreflight(r, groups) then
      exists mid: Ending ::
        mid.uid == e.uid && mid.story <= e.story && PreflightStory(mid, i, r, groups, blocked, body, wasPrepared) &&
        ExecuteRouted(mid, e, groups, wasPrepared)
    else ExecuteStory(e, i, r, groups, body, None, wasPrepared)
  }

  /** The preflight ended the handling, or it goes on with the body that was accepted. */
  ghost predicate ExecuteRouted(mid: Ending, e: Ending, groups: bool, wasPrepared: bool) {
    if mid.end.Ok? && mid.end.value.Proceed? then
      ExecuteStory(e, |mid.story|, mid.last, groups, mid.end.value.body, mid.end.value.preflight, wasPrepared)
    else e == mid
  }

  // ---- The whole handling ----------------------------------------------------------------------------

  /** The body of a first request; a prepared one is only ever cloned. */
  function NewBody(input: Input, scope: nat): (body: Body)
    ensures body.operation == input.operation && body.message == input.message && body.content == input.content
    ensures body.scope == scope && body.expected.None? && body.attachments.None?
  {
    Body(input.operation, scope, input.message, input.content, None, None, None, 0)
  }

  ghost predicate BeginStory(e: Ending, i: nat, r: Record, groups: bool, blocked: set<nat>) {
    && HeardAt(e, i) && What(e, i).Scoped?
    && var body := if r.prepared.Some? then r.prepared.value else NewBody(r.input, What(e, i).scope);
    if BlockedBy(body, blocked) then Returns(e, i + 1, r, Deferred)
    else if r.prepared.Some? && Versioned(body.operation) && body.expected.None? then Fails(e, i + 1, r, 409)
    else RouteStory(e, i + 1, r, groups, blocked, body, r.prepared.Some?)
  }

  /** `handleSerial` returns a verdict. */
  function AsFlow(r: Outcome<Verdict>): Outcome<Flow> {
    if r.Ok? then Ok(Return(r.value)) else r.PropagateFailure()
  }

  /** Chat's input stays Chat's, a kept notice is repeated, and only then is the input looked at. */
  ghost predicate Handles(e: Ending, r: Record, groups: bool, blocked: set<nat>) {
    if r.chatHandoff then Returns(e, 0, r, Chat)
    else if r.notice.Some? then Freezes(e, 0, r, r.notice.value)
    else BeginStory(e, 0, r, groups, blocked)
  }

  // ---- Chat, and how a record leaves the inbox ----------------------------------------------------------

  /**
   * What the Bridge does with an input handed over to it: known and barred
   * messages are dropped, refused ones and strangers are told so, its own
   * commands are answered, and everything else is submitted to Chat once.
   */
  predicate ChatStory(u: nat, story: seq<Event>, i: nat, r: Record, last: Record, why: Option<Silence>, allowed: bool) {
    && |story| == i + 2 && story[i].HandedOver? && story[i].uid == u
    && if why.Some? then story[i + 1] == Dropped(u, why.value) && last == r
       else if Refusal(r.input).Some? || !allowed then story[i + 1] == Answered(u) && last == r
       else if r.input.command then story[i + 1] == Answered(u) && last == r.(chatSubmitted := true)
       else story[i + 1] == ChatPosted(u, r.id) && last == r.(chatSubmitting := true, chatSubmitted := true)
  }

  datatype Next = Continue(blocked: set<nat>) | Stop

  /** Where a record is after its turn: kept with what it became, or gone, with or without a marker of either kind. */
  datatype Place = Stays(last: Record) | Gone(buried: bool, quarantined: bool)

  /** Errors that no retry can heal. */
  predicate Fatal(status: nat) { status in {400, 409, 413} }

  /** Later inputs of a known binding wait for it; an unknown one stops the conversation. */
  function After(last: Record): Next {
    if last.prepared.Some? && last.prepared.value.expected.Some?
    then Continue({last.prepared.value.expected.value.binding}) else Stop
  }

  /** What follows a handling: the record waits, is completed, becomes Chat's, or its error is dealt with. */
  predicate CompletedAs(e: Ending, story: seq<Event>, last: Record, why: Option<Silence>, allowed: bool, place: Place,
                        next: Next)
  {
    match e.end
    case Ok(Return(Deferred)) => story == e.story && place == Stays(e.last) && next == Continue({})
    case Ok(Return(Done)) =>
      && story == e.story && place == Gone(e.last.notice.Some? || e.last.mediaCommitted, false)
      && next == Continue({})
    case Ok(Return(Chat)) =>
      && e.story <= story && ChatStory(e.uid, story, |e.story|, e.last, last, why, allowed)
      && place == Gone(false, false) && next == Continue({})
    case Thrown(status) =>
      && story == e.story
      && (if Fatal(status) then place == Gone(false, true) && next == Continue({})
          else place == Stays(e.last) && next == After(e.last))
    case _ => false
  }
}
