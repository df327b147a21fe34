# The InfoFlow bridge, modelled and proved

This project models the parts of the InfoFlow bridge whose guarantees span whole runs, and proves them in
Dafny: how an inbound message reaches exactly one destination, how an outgoing one is delivered under a
pinned checkpoint, how robots are invited to groups, how texts are fitted into budgets, and two small state
machines beside them, the frontend patcher and the browser's activity queue.

`dafny verify dfyconfig.toml` checks everything.

## How it is built

The protocols come in two layers.  A value layer (`InboundProtocol`, `DeliveryProtocol`,
`KeyedSerialisation`, `ActivityQueue`) has states with a volatile and a durable copy, the actions that can
happen, and a trace of what is heard and what the outside world sees; theorems are about every reachable state.  A class layer
(`InboundRelay`, `DeliveryRelay`, `GroupInspection`, `ConversationNotices`, `WebPatch`) has the fields,
branches and loops of the source, and each of its effects is proved to be one of those actions.  Beside them, tables (`InboundStories`, `GroupStories`, `NoticeStory`) say
what one operation does on each answer, and lemmas say what these tables imply; each operation follows its table
unless one of its effects failed.

Answers of services, clocks, rosters and failures are arbitrary: an effect returns any value of its type,
throws with any status, or is the last thing the process does (`Effects.Outcome`).  Files that the source
writes to a temporary name and renames are replaced as a whole or not at all.  At every `await`, other
conversations, items or groups may save the shared file.  Hashes are injective, so a digest or fingerprint is
the value it is taken of.  Texts are sequences of UTF-16 code units, measured in units or in UTF-8 bytes.

| files | what they model |
|---|---|
| Effects, Runs, Mentions, Audience | outcomes of effects, runs of a state machine, lists without repetition and whom a message mentions |
| InboundTypes, InboundProtocol, InboundGuarantees, InboundFinality, InboundAnswers, InboundStories, InboundDestinations, InboundRelay | the inbox of `issue-relay.js` with the Chat handoff of `bridge.js` and `chat.js` |
| KeyedSerialisation | the promise-chain locks |
| GroupRouting, DeliveryProtocol, DeliveryGuarantees, DeliveryRelay | deliveries under checkpoints |
| ConversationNotices | conversation notices |
| GroupAdmission, GroupStories, GroupInspection | invitations, web group requests and their scan |
| Utf16, ReplyFences, InlineText, ImageScanner, ImageGrammar, ImageReading, ImageTrimming, ReplyFormat, ReplyOverflow, Packing, CommandNotice, ReplyImages | the text engine |
| WebPatch | the check/apply/restore patcher |
| ActivityQueue | the browser's activity queue |

## Where the code keeps less than it says

Each of these is proved: the exact condition under which the promise holds, and a run or an input that breaks
it otherwise.

- A routing notice is meant to be the record's last word (issue-relay.js:392-397).  If its save fails, and the
  save in the `catch` (342) fails as well, the notice stays in memory only, and the next pass sends it; after a
  crash the input may be routed anew.  The notice is final exactly if the inbox file held a notice when it was
  sent, also one without its text (581-604), or a record that can only come to the same text again.
  `NoticeFinalIff`, `LostNoticeIsNotFinal`, `UnsavedNoticeHappens`.
- A message handed to Chat is meant never to be retargeted (issue-relay.js:389-391).  The same two failing saves
  leave the handing over in memory only; Chat's submission saves again before it posts, but a reply that ends
  the handling does not, and after a crash the message can be posted to a task.  `HandOverFinalIff`,
  `LostHandOverIsNotFinal`, `UnsavedHandOverHappens`.
- A recovered Chat input is not meant to be dropped silently (issue-relay.js:306-307).  The handling it is
  handed to lets it go without a word exactly if its message id is in one of the two histories, or its group
  sender is not allowed (bridge.js:84-91 and 103-109).  `Fallback`, `Drain`, `SilentDropHappens`.
- A delivery whose last save failed is acknowledged by the next poll without a durable checkpoint
  (issue-relay.js:861-876), so a crash can send it again.  `AckIsFinalIffFinished`, `UnfinishedAckHappens`.
  Conversation notices save once more before they acknowledge (conversation-notices.js:73-75) and do not have
  this.
- When the first save of a payload or route fails, the next send uses what is in memory
  (group-markdown.js:64-73, issue-relay.js:811-813).  `SendIsPinnedIffBacked`, `UnbackedSendHappens`.
- The image branch of `formatReply` leaves its loop over budget when the first trimmed summary is an opening
  fence alone that fills the budget: then the closing line exceeds the budget by one, and the next room is
  negative (reply-format.js:80-87).  `ClipImages`, `MarkerFillsIff`, `ExceedsHappens`.  The same loop in
  `combinedMarkdown` keeps its budget for every body with a header, which is all it is given, so a group
  delivery is cut again.  `HeadedNeverExceeds`.
- The scanner of images and `replyFenceSuffix` can read one line differently: the scanner wants no other line
  terminator behind the marker, and accepts a backtick there (markdown-images.js:9-10, reply-format.js:106-108).
  `ReadAlikeIff`, `ReadingsDiffer`.

## Model

| member | source | states |
|---|---|---|
| InboundGuarantees.OneDestination | infoflow-bridge/src/issue-relay.js:384-616 | Over every run with any answers, retries and crashes, a record that issued a task mutation never submits to Chat, nor the other way round; it is not even handed over after a mutation, nor posted after a handing over that the inbox file holds. |
| InboundGuarantees.StableRetries | infoflow-bridge/src/issue-relay.js:465-483 | All task POSTs made for one record, over retries and restarts, carry one and the same body: sender, content, expected binding and generation, attachments. |
| InboundGuarantees.ChatAtMostOnce | infoflow-bridge/src/issue-relay.js:295-312 | The Chat submission of a record runs at most once; unless it was confirmed, the input is retained with its submission mark, in memory and on disk, or quarantined. |
| InboundGuarantees.ArrivalOrder | infoflow-bridge/src/issue-relay.js:343-352 | Message and unbind POSTs for one binding go out in arrival order, and none goes out while an earlier input pinned to that binding is still in the inbox. |
| InboundGuarantees.NeverReadmitted | infoflow-bridge/src/issue-relay.js:223 | A message that was quarantined or got a terminal routing marker is never admitted again. |
| InboundFinality.NoticeFinalIff | infoflow-bridge/src/issue-relay.js:392-397 | A routing notice is all that its record will ever do or say if and only if, as it was sent, the inbox file held a notice, with or without text, or a record that can only come to the same text again. |
| InboundFinality.FinalNoticeIsLast | infoflow-bridge/src/issue-relay.js:392-397 | After such a notice the record only repeats it, in any continuation: no task POST, no other text, no handing over to Chat. |
| InboundFinality.LostNoticeIsNotFinal | infoflow-bridge/src/issue-relay.js:418-463 | For every other notice there is a run, with a crash and then steps that each follow a branch of the handling, in which the record posts to a task or says another text. |
| InboundFinality.UnsavedNoticeHappens | infoflow-bridge/src/issue-relay.js:418-423 | A run to such a notice, from an empty inbox. |
| InboundFinality.TextlessIsSilent | infoflow-bridge/src/issue-relay.js:578-604 | A record whose saved notice has nothing to send is silent for good once the handling that froze it is over: no text is ever added. |
| InboundFinality.HandOverFinalIff | infoflow-bridge/src/issue-relay.js:450-452 | A message that Chat gets is never posted to a task afterwards if and only if the inbox file held the handing over by then. |
| InboundFinality.LostHandOverIsNotFinal | infoflow-bridge/src/issue-relay.js:389-391 | For every other message there is a run, with a crash and a pass in which the service selects a task, that posts it. |
| InboundFinality.UnsavedHandOverHappens | infoflow-bridge/src/issue-relay.js:450-452 | A run to such a handing over. |
| InboundFinality.SilentDropHappens | infoflow-bridge/src/bridge.js:103-109 | A run in which a message of a group sender who is not allowed is let go without a word. |
| InboundGuarantees.RunKeeps | infoflow-bridge/src/issue-relay.js:218-382 | Every run of saves, crashes, updates and effects keeps the invariant of the inbox, its file and the marker files. |
| InboundGuarantees.ReachableStep | infoflow-bridge/src/issue-relay.js:283-356 | One further permitted effect leads to a state that runs can reach; every effect of the class below is one. |
| InboundProtocol.ActionKeeps | infoflow-bridge/src/issue-relay.js:218-382 | Each single step keeps what is promised about every pair of effects and about both copies of every record. |
| InboundProtocol.PostKeeps | infoflow-bridge/src/issue-relay.js:557-567 | A task POST made when memory and file agree, with a sealed body, keeps all promises about earlier and later effects. |
| InboundProtocol.ChatPostKeeps | infoflow-bridge/src/chat.js:93-105 | A Chat POST is only made right after its mark was saved, and no other can follow it. |
| InboundProtocol.AfterSubmitKeeps | infoflow-bridge/src/bridge.js:149-159 | Confirming a submission leaves the record confirmed, never submittable again. |
| InboundProtocol.DeleteKeeps | infoflow-bridge/src/issue-relay.js:320-330 | Forgetting a record is safe once its Chat submission, if any, is confirmed or quarantined. |
| InboundProtocol.BuryKeeps | infoflow-bridge/src/issue-relay.js:367-375 | A terminal routing marker bars its message id from then on. |
| InboundProtocol.FreezeKeeps | infoflow-bridge/src/issue-relay.js:418-463 | Freezing a notice, as the branches of the handling do, never contradicts a final notice sent before. |
| InboundProtocol.FillKeeps | infoflow-bridge/src/issue-relay.js:578-604 | Giving a notice its text, in the handling that froze it, never contradicts a final notice sent before. |
| InboundProtocol.TellKeeps | infoflow-bridge/src/issue-relay.js:484-505 | Showing a decision without freezing it never follows a final notice. |
| InboundDestinations.ChatIffUnclaimed | infoflow-bridge/src/issue-relay.js:447-453 | A handling of a message ends with Chat if and only if nothing was selected for it before and the preflight was answered in it: not handled, no binding, and the message is not refused; then only the handing over has changed, and nothing was said. |
| InboundDestinations.SaysAsDecided | infoflow-bridge/src/issue-relay.js:447-464 | What no binding takes and is not Chat's ends with one kept notice: a refused message with its refusal, everything else in the service's words, and an unbind without any by saying that nothing was bound. |
| InboundDestinations.RequestIsAsDecided | infoflow-bridge/src/issue-relay.js:430-575 | A handling makes at most one request: not for a refused input, not for one with a kept notice or handed to Chat, and no fourth upload; a first one carries the message id, the content and the scope heard; a pinned one names the binding that the preflight of this handling confirmed, which takes comments and whose group, if it has one, was found active in the pinned generation; none is for a blocked binding. |
| InboundDestinations.RequestIsAnswered | infoflow-bridge/src/issue-relay.js:525-575 | The images of a new body are posted all together or not at all: exactly those that arrived in this handling, as many as the message has, at most five and 20 MB; and the answer follows the request. |
| InboundDestinations.AnswerIsHeeded | infoflow-bridge/src/issue-relay.js:567-615 | Images refused for good are explained and not tried again, other errors stand; media is noted on the service's word only; an unhandled message is an error and never Chat's, an unhandled lookup is Chat's unless it was explicit; whatever is handled is shown, last of all, unless its success shows elsewhere. |
| InboundAnswers.DestinationsAreDecided | infoflow-bridge/src/issue-relay.js:439-483 | In every run from a fresh start, of every message admitted in it: memory and file mark it as Chat's only if the service said in a preflight of that record that no task claims it; and every destination in memory, in the file or in a request was named by the service in a preflight of that record. |
| InboundRelay.Relay.Drain | infoflow-bridge/src/issue-relay.js:283-356 | One pass: every record that left the inbox was answered, posted, confirmed in Chat, let go by Chat for a known message or a group sender who is not allowed, or has a marker file; one with an uncertain Chat submission only leaves for the quarantine; after a complete pass that was not stopped none of these is left, and each record still waiting is pinned to a blocked binding; a pass without failures is incomplete only because of a record without a destination. |
| InboundRelay.Relay.HandleSerial | infoflow-bridge/src/issue-relay.js:384-616 | Handling one record takes protocol steps only and touches no other record; done means answered and not for Chat, deferred means pinned to a blocked binding.  What is asked, done and said, the record left and the verdict are the function of the answers that `InboundStories.Handles` defines, unless an effect failed or the relay stopped; nothing is asked twice or left out.  A record with a notice that has no text is answered in silence. |
| InboundRelay.Relay.PinDestination | infoflow-bridge/src/issue-relay.js:465-483 | The first observed binding and generation are saved, with the body and nothing else changed, before anything else is tried. |
| InboundRelay.Relay.Unclaimed | infoflow-bridge/src/issue-relay.js:447-464 | An input that no binding claims goes where the answer sends it: to Chat, or to the one notice it names. |
| InboundRelay.Relay.Preflight | infoflow-bridge/src/issue-relay.js:439-464 | The decision heard sends the input where the tables say.  Either the record is concluded (answered, handed to Chat, or deferred), or a message or unbind goes on with its binding pinned in the saved record. |
| InboundRelay.Relay.Accepting | infoflow-bridge/src/issue-relay.js:484-511 | An input goes on only with the pinned body unchanged and its binding not blocked; otherwise it is concluded, with the notice that the binding or its group calls for. |
| InboundRelay.Relay.StageImages | infoflow-bridge/src/issue-relay.js:525-551 | The attempt is counted; either the body gets its attachments and nothing else changes, or the input is answered as a whole, or left for one of three attempts, and never goes to Chat. |
| InboundRelay.Relay.SaveBody | infoflow-bridge/src/issue-relay.js:557-558 | The record then holds a sealed body with the pinned destination, and a save that returns has made file and memory equal. |
| InboundRelay.Relay.ConfirmUpload | infoflow-bridge/src/issue-relay.js:559-565 | An input whose uploads are used up is marked as received, refused, or left, as the service answers, and never handed to Chat or sent again. |
| InboundRelay.Relay.Post | infoflow-bridge/src/issue-relay.js:567-574 | The POST sends exactly the saved body, and logs which inputs of the binding were ahead. |
| InboundRelay.Relay.Conclude | infoflow-bridge/src/issue-relay.js:576-615 | An answered request ends the handling as the tables say: done, or for Chat exactly if the record carries the handoff. |
| InboundRelay.Relay.SubmitChat | infoflow-bridge/src/chat.js:57-110 | A submission that returns is confirmed and its mark is used up; no other record is touched. |
| InboundRelay.Relay.Fallback | infoflow-bridge/src/bridge.js:76-167 | A known or uncertain message, and a group sender who is not allowed, is let go without a word, at once and with nothing else changed; any other one that returns was refused with an answer, answered as a command, or submitted once and confirmed, by what it is and who sent it. |
| InboundRelay.Relay.OneTurn | infoflow-bridge/src/issue-relay.js:286-352 | A turn without failures: a settled record leaves, an uncertain or quarantined one goes to the quarantine, and any other one is handled; then it waits, leaves with a terminal marker exactly if it has a notice or committed media, is Chat's, or its error quarantines it, blocks its binding or stops the pass. |
| InboundRelay.Relay.Recover | infoflow-bridge/src/issue-relay.js:323-352 | After an error a record leaves the inbox only confirmed in Chat or quarantined; a hopeless or uncertain one is quarantined, and only that; one that stays is unchanged, and is passed over only if pinned and with no submission begun, and then blocks its binding. |
| InboundRelay.Relay.ArchiveQuarantined | infoflow-bridge/src/issue-relay.js:358-365 | A record that left the inbox has its quarantine file, also when the later save fails. |
| InboundRelay.Relay.Handle | infoflow-bridge/src/issue-relay.js:218-253 | A message is ignored, known, turned away by a full inbox, accepted with its save, or lost with it, and only a known or accepted one starts a pass; every record that left the inbox is accounted for as in the pass. |
| InboundRelay.Relay.Arrive | infoflow-bridge/src/issue-relay.js:223-249 | A quarantined or terminally routed message changes nothing, nor does a known one, nor a new one while the inbox is full; any other is admitted together with its save, or not at all. |
| InboundRelay.Relay.SaveInbox | infoflow-bridge/src/issue-relay.js:377-382 | A save that returns has made the file equal to the inbox; one that throws has left the file alone. |
| InboundRelay.Relay.Live | infoflow-bridge/src/issue-relay.js:218-356 | Any messages, failures and restarts lead to a reachable state, so all the theorems above hold of it. |
| InboundStories.NewBody | infoflow-bridge/src/issue-relay.js:405-416 | The body of a first request carries the input's operation, message id and content and the scope heard, and names no destination. |
| KeyedSerialisation.MutualExclusion | infoflow-bridge/src/issue-relay.js:255-260 | At most one action per key runs at any time, in every run of the promise chains. |
| KeyedSerialisation.CallOrder | infoflow-bridge/src/issue-groups.js:299-305 | Actions of one key run in call order, also after failed ones. |
| KeyedSerialisation.EntryIsLast | infoflow-bridge/src/issue-groups.js:211-219 | The entry of the map is the last call of its key, so it is never removed while another is queued behind it. |
| KeyedSerialisation.NoDeadlock | infoflow-bridge/src/chat.js:39-44 | While some call of a key has not settled, one of them can make a step. |
| KeyedSerialisation.NoLeak | infoflow-bridge/src/bridge.js:66-74 | When all calls are settled and cleaned up, the map is empty. |
| KeyedSerialisation.SerialQueue.Serial | infoflow-bridge/src/issue-relay.js:255-260 | A call is chained behind the entry of its key and becomes the entry. |
| KeyedSerialisation.SerialQueue.Settle | infoflow-bridge/src/issue-relay.js:259 | An entry removes itself only while it is still the last. |
| DeliveryGuarantees.PartsInOrder | infoflow-bridge/src/issue-relay.js:815-866 | When a part is sent, all earlier parts of the same content were sent before, and nothing below a progress that was once saved is sent again. |
| DeliveryGuarantees.AckAfterEveryPart | infoflow-bridge/src/issue-relay.js:867-876 | An acknowledgement is requested only after every part was sent, with the digest pinned at the first send. |
| DeliveryGuarantees.AckIsFinal | infoflow-bridge/src/issue-relay.js:877-882 | After an acknowledgement request backed by a saved checkpoint, no coordinator, however stale its snapshot, sends the group item again. |
| DeliveryGuarantees.AckIsFinalIffFinished | infoflow-bridge/src/issue-relay.js:861-876 | An acknowledged group item is never sent again if and only if the save of its last progress went through before the request. |
| DeliveryGuarantees.UnfinishedIsResent | infoflow-bridge/src/issue-relay.js:865-876 | Without that save there is always a run, with a crash, that sends the acknowledged item again. |
| DeliveryGuarantees.UnfinishedAckHappens | infoflow-bridge/src/issue-relay.js:861-876 | A run to an acknowledgement request whose progress was not saved. |
| DeliveryGuarantees.PinnedPayload | infoflow-bridge/src/group-markdown.js:61-82 | After a durable send, further sends of the part reuse message id, time, audience and content, unless the service refused the audience in between; then only a strictly smaller part of that audience follows. Digest and route never change. |
| DeliveryGuarantees.SendIsPinnedIffBacked | infoflow-bridge/src/group-markdown.js:64-73 | What a group send pins stays pinned in every continuation if and only if the durable checkpoint already said it. |
| DeliveryGuarantees.UnbackedIsNotSteady | infoflow-bridge/src/group-markdown.js:72 | A send whose checkpoint was not saved can be followed, after a crash, by one with another id. |
| DeliveryGuarantees.UnbackedSendHappens | infoflow-bridge/src/group-markdown.js:64-73 | A run to a permitted send whose checkpoint was not saved. |
| DeliveryGuarantees.FreshRoute | infoflow-bridge/src/issue-relay.js:819-823 | Every group send of a run follows, as the last observation before it, one with the leader present, the sender in the roster and the generation of the send, and no other part was sent in between. |
| DeliveryGuarantees.RunKeeps | infoflow-bridge/src/issue-relay.js:743-890 | Every run of deliveries, saves and crashes keeps the checkpoint invariant. |
| DeliveryProtocol.SendKeeps | infoflow-bridge/src/issue-relay.js:854-866 | A send keeps what earlier and later sends promise about digest, route, payload and progress. |
| DeliveryProtocol.RepinKeeps | infoflow-bridge/src/issue-groups.js:123-134 | Replacing the payload by one with a smaller audience, after an explicit refusal, keeps what the sends promise. |
| DeliveryProtocol.ActionKeeps | infoflow-bridge/src/issue-relay.js:743-890 | Each single step of a delivery keeps the invariant. |
| DeliveryProtocol.AskAckKeeps | infoflow-bridge/src/issue-relay.js:874-876 | Asking for the acknowledgement with all parts sent keeps the invariant. |
| DeliveryGuarantees.SentIsAddressed | infoflow-bridge/src/issue-relay.js:822-826 | Every message that a run sends mentions whom its checkpoint names: those accounts, once each and, if a roster was read for it, as far as that confirmed them; the first fifty are shown and the others counted; after a refusal, a part of these fifty. |
| DeliveryGuarantees.AddressedMeans | infoflow-bridge/src/group-markdown.js:64-70 | Nobody is mentioned who was not asked for, and without a roster shown and omitted recipients are all of them. |
| Mentions.Once | infoflow-bridge/src/reply-mentions.js:11-18 | Of the accounts, in lower case and known to be people: each once, exactly those mentioned, in the order of first mention. |
| Audience.Confirmed | infoflow-bridge/src/issue-groups.js:125-127 | The members a roster confirms: a subsequence of the audience, with exactly those in the roster. |
| Audience.ConfirmedCounts | infoflow-bridge/src/issue-groups.js:125-127 | A confirmed account is left as often as it was there. |
| DeliveryRelay.Delivery.SendGroupExact | infoflow-bridge/src/issue-groups.js:100-134 | A first message goes to the whole audience, for a checked item as far as a roster read for it confirms it; a message explicitly rejected is sent once more to those of its people who are in the group, unless these are all; errors have no other cause than a failed effect, a refused check, or a message given up so. |
| DeliveryRelay.Delivery.Deliver | infoflow-bridge/src/issue-relay.js:762-883 | A changed content or audience is refused untouched, an acknowledged item is left alone; success on a group item means that its first message went to its pinned audience, its digest was acknowledged and that mark saved; leaving it means that the relay was stopped, and an error that an effect failed or has one of the named causes. |
| DeliveryRelay.Delivery.DeliverParts | infoflow-bridge/src/issue-relay.js:815-867 | On success each part from the checkpoint on was sent, in order, under the pinned digest, the first of a group item to its audience; a stopped relay sends nothing. |
| DeliveryRelay.Delivery.PinCheckpoint | infoflow-bridge/src/issue-relay.js:810-814 | Digest, audience and route are saved before the first send. |
| DeliveryRelay.Delivery.PrepareGroupDelivery | infoflow-bridge/src/group-markdown.js:61-82 | The payload is filled once; shown and omitted recipients make up the deduplicated audience. |
| DeliveryRelay.Delivery.ShrinkAudience | infoflow-bridge/src/issue-groups.js:123-134 | The new payload has a strictly smaller audience, the confirmed members in order, and a larger message id, and is saved. |
| DeliveryRelay.Delivery.ClientMessageId | infoflow-bridge/src/issue-groups.js:5-10 | Message ids strictly increase and never fall behind the clock, nor run ahead of both clock and predecessor. |
| DeliveryRelay.Delivery.ObserveGroup | infoflow-bridge/src/issue-relay.js:819-821 | A leader reported present is connected and was seen, and the observation is on record with its generation. |
| DeliveryRelay.Delivery.Acknowledge | infoflow-bridge/src/issue-relay.js:867-882 | The acknowledgement is requested with every part sent and the mention noted, unless the relay was stopped; a group item is then marked, a private one forgotten. |
| DeliveryRelay.Delivery.Live | infoflow-bridge/src/issue-relay.js:757-887 | Any coordinators, snapshots and restarts lead to a reachable state, so all the theorems above hold of it. |
| GroupRouting.PinIsKept | infoflow-bridge/src/issue-groups.js:323-330 | Whenever a sender is selected under a pin, it is the pinned one: robot, agent, delegation and label. |
| GroupRouting.SelectedCanSend | infoflow-bridge/src/issue-groups.js:307-345 | Whoever is selected is connected and was seen in the group, with the leader present. |
| GroupRouting.DelegationIsTheLeaders | infoflow-bridge/src/issue-groups.js:331-343 | Only the leader speaks for another agent, under its name, and only when no robot of that agent was seen. |
| GroupRouting.MirrorIff | infoflow-bridge/src/issue-groups.js:310-318 | A person's message is mirrored if and only if its author agent is the leader's, the leader can send, and no other pin stands. |
| GroupRouting.PinnedIff | infoflow-bridge/src/issue-groups.js:321-329 | A pinned sender is selected if and only if the leader is present, the author in the team, the robot connected and seen, and, if it speaks for others, still the leader's. |
| GroupRouting.FreshIff | infoflow-bridge/src/issue-groups.js:331-343 | Without a pin the author's only robot speaks if and only if it is in the group and connected; the leader does if and only if there is none, or the one there is is not in the group. |
| ConversationNotices.SentAsAllowed | infoflow-bridge/src/conversation-notices.js:49-71 | A notice is sent at most once in a poll, right after the service allowed it, from inside its group, and with its first content. |
| ConversationNotices.CompletedIff | infoflow-bridge/src/conversation-notices.js:43-83 | A poll completes a notice if and only if its checkpoint then says acknowledged; if it does so now, the service took an acknowledgement that names the message. |
| ConversationNotices.AppendSent | infoflow-bridge/src/conversation-notices.js:66-71 | A send under a checkpoint with an open outcome keeps the promises about acknowledgements. |
| ConversationNotices.AppendAck | infoflow-bridge/src/conversation-notices.js:73-82 | An acknowledgement of a saved, sent notice keeps the promises about later sends. |
| ConversationNotices.NoticeRelay.Deliver | infoflow-bridge/src/conversation-notices.js:43-83 | What is asked, sent and acknowledged, and the result, are the function of the answers that `NoticeStory` defines, unless an effect failed or the relay stopped: a notice with another digest is refused, a sent one is only acknowledged, and success means acknowledged and saved so. |
| ConversationNotices.NoticeRelay.SaveNotices | infoflow-bridge/src/conversation-notices.js:73-75 | A save that returns has made the file equal to the checkpoint in memory. |
| ConversationNotices.NoticeRelay.Live | infoflow-bridge/src/conversation-notices.js:34-86 | Over any polls and crashes, an acknowledged notice had been sent, and is never sent again. |
| GroupAdmission.InvitationKeeps | infoflow-bridge/src/issue-groups.js:274-287 | An invitation whose attempt was counted and saved first keeps the budget: at most three per binding, generation, group and robot, each wait at least twice the one before. |
| GroupAdmission.CountKeeps | infoflow-bridge/src/issue-groups.js:277-282 | Counting an attempt before it is made keeps the ledger true of what was issued. |
| GroupAdmission.InvitationLedger | infoflow-bridge/src/issue-groups.js:277-283 | After the invitation the ledger, in memory and on file, accounts for it. |
| GroupAdmission.JobsHaveOneTarget | infoflow-bridge/src/web-group-bindings.js:57-66 | All work and all invitations of a web generation concern one group and one applicant. |
| GroupAdmission.RotationCovers | infoflow-bridge/src/web-group-bindings.js:73-90 | From any stored cursor, any ceil(n/99) consecutive scans contain every one of n candidates. |
| GroupAdmission.CursorIs | infoflow-bridge/src/web-group-bindings.js:79-84 | The stored cursor advances by one batch, modulo the number of candidates, with each scan. |
| GroupAdmission.BatchIsConsecutive | infoflow-bridge/src/web-group-bindings.js:81-82 | A batch that is not everything is full: 99 consecutive candidates from the cursor on, in a circle. |
| GroupInspection.EveryCandidateProbed | infoflow-bridge/src/web-group-bindings.js:73-109 | Enough full scans, with restarts anywhere between them, look up every candidate. |
| GroupStories.Candidates | infoflow-bridge/src/web-group-bindings.js:76-77 | The robots to try are distinct, exactly those hinted or configured other than the polling one, in order of mention. |
| GroupStories.HintedFirst | infoflow-bridge/src/web-group-bindings.js:73-77 | Hinted robots are tried before those that are only configured. |
| GroupStories.Connected | infoflow-bridge/src/issue-groups.js:242 | The robot found is a connected one of that id; none is missed. |
| GroupStories.SuccessIff | infoflow-bridge/src/web-group-bindings.js:105-164 | A web request succeeds if and only if its final read shows inviter, applicant and the leader together, the leader being the only listed robot of its agent, connected and able to send. |
| GroupStories.ReadStoryMeans | infoflow-bridge/src/issue-groups.js:234-268 | A leader reported present is shown by the last read of the inspection. |
| GroupInspection.IssueGroups.MaybeInvite | infoflow-bridge/src/issue-groups.js:274-287 | Counts and saves, then invites, directly after the read that entitles it; refuses without a trace while the budget or the wait forbids it. |
| GroupInspection.IssueGroups.InspectSerial | infoflow-bridge/src/issue-groups.js:221-268 | The result is the function of what was listed, read and answered: without one connected leader the reason says so, a failed read says so after the other robot was tried, and the leader is reported present exactly from the last read that shows it; without leave to invite nothing is invited. |
| GroupInspection.IssueGroups.Observe | infoflow-bridge/src/issue-groups.js:234-267 | An invitation follows a read of this inspection that did not show the leader, and its inviter is read again; the leader is reported present only from a read that shows it. |
| GroupInspection.IssueGroups.PinTarget | infoflow-bridge/src/web-group-bindings.js:57-66 | A generation with another target is refused; otherwise the target is saved before any outside work. |
| GroupInspection.IssueGroups.TakeBatch | infoflow-bridge/src/web-group-bindings.js:79-84 | The batch is that of the stored cursor, and the moved cursor is saved before the scan. |
| GroupInspection.IssueGroups.FindCaller | infoflow-bridge/src/web-group-bindings.js:85-109 | The caller found was seen in the group by its own read, with the applicant; it is the first that its own read shows; a scan that finds none visited every robot, and says whether one of them could not be asked. |
| GroupInspection.IssueGroups.Refresh | infoflow-bridge/src/web-group-bindings.js:111-119 | The reason is empty exactly when the fresh read shows inviter and applicant. |
| GroupInspection.IssueGroups.Targets | infoflow-bridge/src/web-group-bindings.js:131-145 | The leader comes first, no application twice, none the caller's; and every other member whose lookup was unambiguous is included, unless its application is there already. |
| GroupInspection.IssueGroups.InviteTargets | infoflow-bridge/src/web-group-bindings.js:146-157 | Every target was seen in the group or had its invitation counted, unless inviter or applicant left; the leader's reason is never empty. |
| GroupInspection.IssueGroups.InspectWebGroupJob | infoflow-bridge/src/web-group-bindings.js:43-164 | The result is the function of what was listed, scanned, read and answered: each early reason has its one condition, such as a leader that is not the only one, or lacks connection or sender; the reason is empty exactly when a final read shows inviter, applicant and leader together; a changed target is refused untouched. |
| GroupInspection.IssueGroups.Rescan | infoflow-bridge/src/web-group-bindings.js:73-109 | Repeated full scans with restarts probe every candidate. |
| GroupInspection.IssueGroups.Live | infoflow-bridge/src/issue-groups.js:211-287 | Over any inspections, web requests and crashes: the budget holds, each invitation directly follows its entitling read, and a generation keeps its target. |
| ReplyFences.SuffixCloses | infoflow-bridge/src/reply-format.js:104-112 | Appending the suffix closes the text: the suffix of the result is empty, for every text. |
| ReplyFences.ReplyFenceSuffix | infoflow-bridge/src/reply-format.js:104-112 | The loop over fence lines computes the suffix that the line-by-line reading defines. |
| ReplyFences.SuffixIsShort | infoflow-bridge/src/reply-format.js:104-112 | The suffix is at most one longer than the text, and that only when the text is an opening fence alone. |
| ReplyFences.ClosedUnderHeader | infoflow-bridge/src/reply-format.js:73-76 | Below a header that ends its line, a body is closed by its own suffix. |
| ReplyFences.ScanBefore | infoflow-bridge/src/reply-format.js:106-110 | What follows on a new line does not change how the fences before it are read. |
| InlineText.InlineMarkdown | infoflow-bridge/src/inline-markdown.js:3-13 | The loop yields the escaped text, or as many whole units as leave room for the dots. |
| InlineText.InlineFits | infoflow-bridge/src/inline-markdown.js:6-12 | The result takes at most the limit, or the three bytes of the dots. |
| InlineText.InlineSaysThePrefix | infoflow-bridge/src/inline-markdown.js:4-12 | Reading the escapes back gives the text, or a beginning of it with dots: no escape is cut, none is missing. |
| InlineText.InlineIsGuarded | infoflow-bridge/src/inline-markdown.js:3-13 | No character that starts Markdown, a link, a mention or a tag stands bare in the result. |
| InlineText.InlineIsLongest | infoflow-bridge/src/inline-markdown.js:6-12 | The result is the whole text, or its longest beginning that leaves room for the dots. |
| InlineText.SpecialCharacters | infoflow-bridge/src/inline-markdown.js:4 | The escaped characters, as they are written. |
| ImageGrammar.TokenIff | infoflow-bridge/src/markdown-images.js:24-58 | The scanner recognises an image at a place if and only if one is written there: brackets balanced, a destination bare or in angle brackets, an optional title, with escapes. |
| ImageGrammar.WrittenIsRead | infoflow-bridge/src/markdown-images.js:24-58 | Every image that is written is recognised, with the text and URL that were meant. |
| ImageGrammar.ReadWasWritten | infoflow-bridge/src/markdown-images.js:24-58 | Every recognised image was written so. |
| ImageGrammar.UnescapeMeans | infoflow-bridge/src/markdown-images.js:37-44 | The URL is what the escapes of the destination say. |
| ImageGrammar.EscapedUrl | infoflow-bridge/src/markdown-images.js:37-44 | Every URL can be written so that it is read back. |
| ImageReading.FoundAreRead | infoflow-bridge/src/markdown-images.js:2-62 | The images found are exactly those of any reading of the text into plain units, escapes, code spans, fenced lines and images, in order. |
| ImageReading.ReadingExists | infoflow-bridge/src/markdown-images.js:2-62 | Every text has such a reading. |
| ImageReading.FoundUnlessHidden | infoflow-bridge/src/markdown-images.js:2-62 | An image that is written is found, unless code, a fence, an escape or an earlier image has its beginning. |
| ImageReading.FoundIsImage | infoflow-bridge/src/markdown-images.js:2-62 | What is found is written as an image, and lies outside every code span, fence and escape. |
| ImageReading.FenceLineOpens | infoflow-bridge/src/markdown-images.js:6-10 | Which lines open a fence, and with which marker. |
| ImageReading.TogglesCloses | infoflow-bridge/src/markdown-images.js:11-14 | Which lines close it. |
| ImageScanner.MarkdownImages | infoflow-bridge/src/markdown-images.js:2-62 | The scanner terminates, and finds the images that the grammar of the step function defines, in order. |
| ImageScanner.OrderedMeans | infoflow-bridge/src/markdown-images.js:57-58 | Any two found images are in order, disjoint and within the text. |
| ImageScanner.TokenAt | infoflow-bridge/src/markdown-images.js:24-58 | A found image begins with its bang and bracket, contains its text, and ends with its parenthesis. |
| ImageScanner.CodeSpanEnd | infoflow-bridge/src/markdown-images.js:17-23 | The loop over `indexOf` computes the end of the code span. |
| ImageScanner.CodeSpanIsMatched | infoflow-bridge/src/markdown-images.js:17-23 | A code span ends behind the first later run of exactly as many backticks as open it, with none on either side; without such a run there is no span. |
| ImageScanner.ScanToken | infoflow-bridge/src/markdown-images.js:24-57 | The nested loops recognise the same token as the grammar. |
| ImageScanner.ReadAlikeIff | infoflow-bridge/src/markdown-images.js:6-14 | Exactly when a line leaves the same fence open for the scanner as for `replyFenceSuffix`. |
| ImageScanner.ReadingsDiffer | infoflow-bridge/src/markdown-images.js:9-10 | A line with which the scanner opens a fence and `replyFenceSuffix` does not. |
| ImageTrimming.ReplacingByItself | infoflow-bridge/src/markdown-images.js:64-68 | Replacing each image by itself gives back the text. |
| ImageTrimming.ReplaceMarkdownImages | infoflow-bridge/src/markdown-images.js:64-68 | Only images are replaced; all other text stays, in its place. |
| ImageTrimming.TrimmedFits | infoflow-bridge/src/markdown-images.js:77-90 | Trimming stays within the budget, in units and in bytes. |
| ImageTrimming.TrimmedIsGreedy | infoflow-bridge/src/markdown-images.js:77-90 | What trimming keeps: from the first image on each one that still fits, whole, and of what is between them the longest beginning that fits the room left. |
| ImageTrimming.DroppedDoesNotFit | infoflow-bridge/src/markdown-images.js:77-82 | For a dropped image there is no room beside those kept. |
| ImageTrimming.CutLeavesLittle | infoflow-bridge/src/markdown-images.js:83-90 | Once any text is cut, less than the largest code point remains of the budget. |
| ImageTrimming.PartsMakeText | infoflow-bridge/src/markdown-images.js:77-90 | A text is what is between its images and these, in turn. |
| ImageTrimming.NothingTrimmed | infoflow-bridge/src/markdown-images.js:77-90 | Nothing is trimmed from a text that fits. |
| ImageTrimming.TrimImageMarkdown | infoflow-bridge/src/markdown-images.js:77-90 | The two loops compute that trimming. |
| ImageTrimming.TakeWithin | infoflow-bridge/src/markdown-images.js:83-87 | As many whole code points as fit, and the room they leave. |
| ReplyFormat.Compose | infoflow-bridge/src/reply-format.js:74-100 | The whole text if it fits; otherwise an error, or a cut text within the limit, except in the case that Exceeds names, and then over it. |
| ReplyFormat.FormatReply | infoflow-bridge/src/reply-format.js:65-101 | Throws exactly for a bad reference, or when header and footer alone are too long; otherwise as Compose, and for a label, title and link of their own lines no fence is open at the end of the returned text. |
| ReplyFormat.ClipText | infoflow-bridge/src/reply-format.js:89-101 | Without images, the longest prefix of whole code points that fits with its closing line. |
| ReplyFormat.ClipImages | infoflow-bridge/src/reply-format.js:80-87 | The trim loop terminates, and keeps the text trimmed to the last of the rooms it tries: the full budget first, each next one less by its overshoot; it ends within the budget if and only if what is kept first is not an opening fence alone that fills the budget. |
| ReplyFormat.TriedLosesLittle | infoflow-bridge/src/reply-format.js:80-87 | All that the rooms give up of the budget is room for one closing line. |
| ReplyFormat.FirstIsLast | infoflow-bridge/src/reply-format.js:80-87 | A text that fits the whole budget, trimmed and closed, is not cut further. |
| ReplyOverflow.ExceedsHappens | infoflow-bridge/src/reply-format.js:80-87 | For every limit from 36 on there is a text for which the result is over the limit: a closed code block whose fence fills the budget, and a longer image. |
| ReplyOverflow.ExceedsTheReplyLimit | infoflow-bridge/src/reply-format.js:63-87 | The limit of 8192 that all callers use is one of them. |
| ReplyOverflow.MarkerFillsIff | infoflow-bridge/src/reply-format.js:80-87 | The exceptional case as a condition on the text: no image fits the budget, and what is between the images spells a fence marker of exactly the budget. |
| ReplyFormat.HeadedNeverExceeds | infoflow-bridge/src/group-markdown.js:32-46 | A body that begins with the stars of a header is never in the exceptional case of `combinedMarkdown`. |
| ReplyFormat.TitleNeverThrows | infoflow-bridge/src/reply-format.js:30-40 | Adding a title never turns a successful format into an error, for any limit and measure. |
| ReplyFormat.WithReplyMode | infoflow-bridge/src/reply-format.js:30-40 | The header with as much of the title as the spare bytes allow; an error exactly for a bad reference. |
| ReplyFormat.ClosedAboveFooter | infoflow-bridge/src/reply-format.js:75-76 | Whatever the body, no fence is open where hint or footer begin. |
| ReplyFormat.ReplyIsClosed | infoflow-bridge/src/reply-format.js:71-101 | A whole or cut reply leaves no fence open, with its header, label, hint and footer. |
| ReplyFormat.CombinedMarkdown | infoflow-bridge/src/group-markdown.js:24-59 | Throws exactly when mentions, hint and footer exceed the limit; otherwise at most 8192 units for every body with a header, and for others outside the named case. |
| Packing.SplitMessage | infoflow-bridge/src/issue-relay.js:928-938 | The parts join to the content, none is empty, none over the limit, and each is cut as late as possible. |
| Packing.SplitIsOptimal | infoflow-bridge/src/issue-relay.js:928-938 | No split at code points into parts that fit has fewer parts. |
| Packing.GreedyIsOptimal | infoflow-bridge/src/commands.js:53-57 | Greedy packing needs the fewest groups, for any notion of fitting that is inherited by parts of a group. |
| Packing.GreedyIsAhead | infoflow-bridge/src/commands.js:53-57 | After equally many groups, greedy packing has placed at least as many items as any other. |
| CommandNotice.Paginate | infoflow-bridge/src/commands.js:40-58 | Pages hold the rows in order, packed greedily; a row that names no task or fits no page throws. |
| CommandNotice.PagesAreOptimal | infoflow-bridge/src/commands.js:53-57 | No arrangement of the rows on pages that fit has fewer pages. |
| CommandNotice.PageIsNotCut | infoflow-bridge/src/commands.js:51-67 | A page that holds rows is never truncated when it is formatted, with its hint and closing line. |
| CommandNotice.FormatCommandNotice | infoflow-bridge/src/commands.js:36-68 | The page asked for is shown whole; without choices the heading is the reply; a page past the end says how many there are; a bad choice or page number throws. |
| CommandNotice.OutsideIsNotCut | infoflow-bridge/src/commands.js:60-63 | The reply to a page past the end fits, however many pages there are. |
| CommandNotice.DecimalSays | infoflow-bridge/src/commands.js:60-67 | The digits say the number. |
| ReplyImages.EachExactlyOnce | infoflow-bridge/src/reply-images.js:166-172 | Every attachment is shown exactly once: in place of its first image, or below the text. |
| ReplyImages.Prepare | infoflow-bridge/src/reply-images.js:138-174 | A message that is not eligible or has no attachment is left alone, and without a workspace says that its images are missing; else foreign images and all other text stay, each attachment is shown in place of its first image, repeated ones vanish, and the rest follow. |
| ReplyImages.Render | infoflow-bridge/src/reply-images.js:151-163 | Each usable attachment among the first five is published, once, and shows its transfer if that succeeded; every other one shows the note for its case. |
| ReplyImages.Place | infoflow-bridge/src/reply-images.js:166-171 | The pass with a set of seen attachments does what the first-occurrence rule says. |
| WebPatch.PlanIsThatOfTheCleanTree | overlays/web-patch.py:633-660 | In a tree left by any runs the plan is that of the clean tree, and fails exactly when the clean tree's anchors do. |
| WebPatch.StepsKeep | overlays/web-patch.py:921-934 | Writing a backup, a patched file, an original, or dropping a backup, each keeps the file sound. |
| WebPatch.TornFileFailsClosed | overlays/web-patch.py:653-654 | A file that is neither original nor patched makes the plan fail. |
| WebPatch.OnlyTheAnchorChanges | overlays/web-patch.py:644-651 | Replacing an anchor that occurs once changes that occurrence and nothing around it. |
| WebPatch.PatchedIff | overlays/web-patch.py:644-651 | A text is fully patched if and only if every replacement was made, in order, each at the one place of its anchor. |
| WebPatch.CountIsOne | overlays/web-patch.py:645-646 | The count is one if and only if the anchor occurs at one place. |
| WebPatch.CleanIsSound | overlays/web-patch.py:921-934 | A clean tree is sound. |
| WebPatch.Patcher.PlanPatches | overlays/web-patch.py:633-660 | The plan changes nothing, and exists exactly when every anchor of the clean tree is found once. |
| WebPatch.Patcher.ApplyPatches | overlays/web-patch.py:913-923 | An error writes nothing; a finished run patches every file, and one on a patched tree changes nothing; a stopped run leaves a sound tree. |
| WebPatch.Patcher.RestorePatches | overlays/web-patch.py:926-934 | An error writes nothing; a finished run brings back the originals and removes the backups; a stopped run leaves a sound tree. |
| WebPatch.Patcher.Runs | overlays/web-patch.py:937-942 | Any mix of complete, failed and stopped runs keeps the tree sound. |
| ActivityQueue.OnlyTheOwnersEvents | overlays/web-direct/apps/web/components/live-activity-model.ts:54-82 | No send starts for an event queued before the last change of owner, and none after the end. |
| ActivityQueue.FirstInFirstOut | overlays/web-direct/apps/web/components/live-activity-model.ts:68-80 | Events are tried in queue order, each at most three times. |
| ActivityQueue.OneLoopPerGeneration | overlays/web-direct/apps/web/components/live-activity-model.ts:66-84 | At most one flush loop exists for a generation. |
| ActivityQueue.NeverForgotten | overlays/web-direct/apps/web/components/live-activity-model.ts:65-84 | A live queue that is not empty has a loop at work on its head or a flush scheduled, and holds at most 64. |
| ActivityQueue.NewPageIsQueued | overlays/web-direct/apps/web/components/live-activity-model.ts:54-63 | A page new to its owner is queued as a view once, in an emptied queue if the owner is new, unless the queue is full, and not again while it stays. |
| ActivityQueue.HiddenPageIsNotQueued | overlays/web-direct/apps/web/components/live-activity-model.ts:54-63 | A page that may not be seen is not queued; an owner who leaves takes the events along. |
| ActivityQueue.InteractionIsQueuedIff | overlays/web-direct/apps/web/components/live-activity-model.ts:64-65 | An interaction is queued if and only if an owner may be seen, a minute was quiet and there is room. |
| ActivityQueue.TransientIsTriedAgain | overlays/web-direct/apps/web/components/live-activity-model.ts:71-82 | After a failure that may pass the same event is tried again while fewer than three attempts were made, and is dropped then. |
| ActivityQueue.SettledIsDone | overlays/web-direct/apps/web/components/live-activity-model.ts:71-82 | An event accepted or refused for good is done, and the next is tried at once. |
| ActivityQueue.FlushStarts | overlays/web-direct/apps/web/components/live-activity-model.ts:66-70 | A flush starts a loop on the first event if and only if none is at work. |
| ActivityQueue.StepKeeps | overlays/web-direct/apps/web/components/live-activity-model.ts:47-86 | Every step keeps the invariant of queue, loops and trace. |
| ActivityQueue.LiveActivityQueue.SetContext | overlays/web-direct/apps/web/components/live-activity-model.ts:54-63 | A new owner empties the queue and starts a new generation; a new page is counted once. |
| ActivityQueue.LiveActivityQueue.RunFlush | overlays/web-direct/apps/web/components/live-activity-model.ts:66-67 | A flush does nothing while a loop is active or after the end; otherwise it starts the loop. |
| ActivityQueue.LiveActivityQueue.ResumeSend | overlays/web-direct/apps/web/components/live-activity-model.ts:71-82 | After a send: done, dropped for good, a pause, or the end if the owner is gone. |
| ActivityQueue.LiveActivityQueue.DisposeQueue | overlays/web-direct/apps/web/components/live-activity-model.ts:85 | The queue is emptied for ever, and every loop outdated. |

## Left out

- DeliveryProtocol: private sends carry no pinned message id, so they are at least once; the theorems about one payload are for group items.
- InboundGuarantees.ChatAtMostOnce: speaks of one record; re-admission of a message after its record was completed is not modelled, and the histories of bridge.js may change in any way at an await, so their bound of 200 ids is not.
- InboundRelay: `relayOperation`'s parsing, receipts and their history, the limits of 500 records (whether it is reached is given with the message) and of 64 MB (saves may fail at any time instead), what `handle` returns to its caller, and of a text only which of the fixed ones it is.
- InboundRelay.Relay.Fallback: whether a text is a command is given with the input; what a command does, and the sessions, uploads and replies of a Chat submission, are effects that return or fail, a submission without a task id being one that fails; the branch without a fallback is not modelled.
- Mentions.Once: `notifyUsers` also folds case and refuses accounts that are no people; the list is taken after that.
- DeliveryRelay: legacy parts are given with the item instead of being cut by `replyParts`; image replies are filled in before the content is fixed.
- GroupInspection: inspections of other groups only save the shared file meanwhile, since their keys differ; `webJobLock`, `observeGroup`, `owns` and the set of known robots are not modelled.
- GroupAdmission.InvitationKeeps: the wait is between the clock readings stored with the attempts; a slow save lies between that reading and the request.
- CommandNotice: rows are given rendered; the static help text and the names of responsible agents are not modelled.
- CommandNotice.FormatCommandNotice: requires fewer than 2^32 choices, the bound that arrays have in the source's language.
- ReplyFormat: `replyUrl`, `infoflowMarkdown` and `literalBodyMentions` are applied before; titles arrive normalised; the plain-text form of a reference is not modelled.
- InlineText: control characters and white space were already collapsed.
- ReplyImages: matching an image to an attachment by its addresses is any function, and the order of the attachments is given; transfers, their cache and their deadline are arbitrary outcomes.
- WebPatch: writes are whole; a torn source file is only shown to fail the plan, a torn backup is not modelled, nor a listed file that is missing.
- ActivityQueue: timers fire or are cancelled at any time; the pure functions on routes and queries are not modelled.
- The admin server, login, account lookup, robot connections, HTTP and file-system detail, other overlay patches, React components and scripts: plumbing without a protocol of its own.
- `deliverReply`'s checkpoint for Chat replies: the same pattern as a delivery with one part.
