# Brandabi front end: a verified model of its stateful core

This is a Dafny model of the logic in the Brandabi marketing site, which is written in React and TypeScript. It covers:

- **The live voice widget.** `components/LiveVoiceAssistant.tsx`:
  - the byte and sample codec (`decode`, `encode`, `createBlob`, `decodeAudioData`);
  - the playback scheduler behind `onmessage`: the cursor `nextStartTimeRef` and the set `sourcesRef` of live sources;
  - barge-in (interrupt) handling;
  - `stopSession`;
  - the connection flags.
- **The application shell.** `App.tsx`:
  - the route table, a decision from path and signed-in user to "render page X" or "redirect to Y";
  - the user kept under `brandabeware_user` in local storage, updated by `handleUpdateUser`, `handleLogout` and the mount effect.
- **The sign-up / sign-in form.** `pages/Auth.tsx`: the consent guard, the user record built after submit, field-wise form updates and the mode toggle.
- **The verification page.** `pages/Verification.tsx`: the record update that marks a user verified, and the `verifying` and `sent` flags.
- **The two chat assistants.** `components/AIAssistant.tsx` and `pages/AIAssistant.tsx`:
  - an append-only message log with a send guard and fallback replies;
  - the split of a message on "Senior Growth Consultant" that highlights the title;
  - the widget's speech-input flags and transcript merge.

Modules:

| file | module | what it holds |
|---|---|---|
| `wrappers.dfy` | `Wrappers` | `Option`, `Result` |
| `users.dfy` | `Users` | the `User` record of `types.ts` |
| `pcm_codec.dfy` | `PcmCodec` | binary strings and bytes, Int16 views, de-interleaving, `createBlob`, `decodeAudioData` |
| `scheduler.dfy` | `Scheduler` | the playback scheduler on values, and its invariant |
| `live_voice.dfy` | `LiveVoice` | the widget's state machine, and the class `LiveVoiceAssistant` |
| `app.dfy` | `App` | the route table, the shell's steps, and the class `Shell` |
| `auth.dfy` | `Auth` | the form, the submit guard, and the class `AuthForm` |
| `verification.dfy` | `Verification` | the verified record, the page flags, and the class `VerificationPage` |
| `chat_log.dfy` | `ChatLog` | `trim`, the phrase split and its rendering, the message log |
| `chat_widget.dfy` | `ChatWidget` | the floating widget, with speech input (class `Widget`) |
| `chat_page.dfy` | `ChatPage` | the stand-alone chat page (class `Page`) |

How the model is built:

- Each stateful component is a class whose fields are the component's state and refs.
- `State()` reads the fields out as a datatype.
- Every event handler is a method whose `ensures` ties the new `State()` to a function of the old state, such as `Receive`, `Submit` or `Settle`.
- The properties are lemmas about those functions.
- Each callback runs as one atomic step.
- Everything outside the component is a parameter of the step that observes it:
  - the remote model's replies and server messages;
  - the microphone permission;
  - the output clock;
  - random ids and timestamps;
  - whether `start()` throws.
- A timer is two steps: the handler that queues it, and a later step in which it fires.

Where the code behaves differently from how one might read its intent, the model follows the code:

- **The cursor.** `stopSession` does not reset `nextStartTimeRef`, so after a stop the cursor is where it was (`LiveVoice.StopEndState`). Only an `interrupted` message resets it to 0.
- **Contexts after a refused microphone.** `startSession` creates both audio contexts and stores them in their refs before it asks for the microphone. If the request is refused, only `isConnecting` is rolled back and the contexts stay allocated (`LiveVoice.Start`).
- **onopen and onmessage.** Neither callback checks whether the session is still current. A message that arrives after `stopSession` is still scheduled.
- **Model turn without parts.** The payload is read through an optional chain that does not guard the index into `parts`. A server message whose model turn has no `parts` array therefore throws before the cursor moves, and its interrupt flag is never read (`LiveVoice.MalformedIgnored`).
- **Decode failure.** When a message's audio cannot be decoded, `onmessage` throws after it has moved the cursor up to the clock and before it reads the interrupt flag. The interrupt of that message is therefore lost (`LiveVoice.UndecodableSkipsInterrupt`).
- **Int16 store.** A full-scale positive capture sample of 1.0 × 32768 is not clamped. It wraps to −32768 (`PcmCodec.FullScaleWraps`).

## Model

| member | source | states |
|---|---|---|
| PcmCodec.ToUint8 | components/LiveVoiceAssistant.tsx:17-19 | a Uint8Array store keeps a byte unchanged and any integer modulo 256 |
| PcmCodec.ToInt16 | components/LiveVoiceAssistant.tsx:54-56 | an Int16Array store keeps an in-range sample and wraps any integer modulo 2^16 into [-32768, 32768) |
| PcmCodec.BinaryToBytes | components/LiveVoiceAssistant.tsx:14-22 | `decode` after `atob`: byte i is the code of character i stored in a Uint8Array (its round trips are `BytesRoundTrip` and `BinaryRoundTrip`) |
| PcmCodec.BytesToBinary | components/LiveVoiceAssistant.tsx:24-31 | `encode` before `btoa`: one character per byte, with the byte as its code |
| PcmCodec.LittleEndian | components/LiveVoiceAssistant.tsx:57-59 | the bytes of an Int16Array's buffer: low then high byte of each sample |
| PcmCodec.Int16View | components/LiveVoiceAssistant.tsx:39 | the Int16Array view of a byte buffer, or RangeError for an odd byte count (its inverse is `LittleEndian`, by `PackRoundTrip` and `ViewRoundTrip`) |
| PcmCodec.Quantize | components/LiveVoiceAssistant.tsx:53-56 | each captured sample scaled and stored through Int16Array's wrap-around |
| PcmCodec.BlobOf | components/LiveVoiceAssistant.tsx:52-62 | `createBlob`'s value: the encoded little-endian samples with the 16 kHz PCM type (decoded back by `BlobRoundTrip`) |
| PcmCodec.FullScaleWraps | components/LiveVoiceAssistant.tsx:56 | 32768 is stored as -32768, 32767 as itself: no clamping |
| PcmCodec.BytesToBinaryIsBinary | components/LiveVoiceAssistant.tsx:24-31 | `encode` yields one character per byte, each with code below 256 |
| PcmCodec.BytesRoundTrip | components/LiveVoiceAssistant.tsx:14-31 | decoding the string `encode` builds gives back every byte |
| PcmCodec.BinaryRoundTrip | components/LiveVoiceAssistant.tsx:14-31 | on a binary string, encoding the bytes `decode` stores gives back the string |
| PcmCodec.Decode | components/LiveVoiceAssistant.tsx:14-22 | the array has the string's length and byte i is the code of character i |
| PcmCodec.Encode | components/LiveVoiceAssistant.tsx:24-31 | the string has character i with code byte i, for every byte of the array |
| PcmCodec.SampleRoundTrip | components/LiveVoiceAssistant.tsx:39 | reading a sample back from its low and high byte gives the sample |
| PcmCodec.BytesOfSample | components/LiveVoiceAssistant.tsx:39 | the low and high byte of the sample read from two bytes are those bytes |
| PcmCodec.PackRoundTrip | components/LiveVoiceAssistant.tsx:53-59 | packing n samples gives 2n bytes, and their Int16 view is the samples |
| PcmCodec.ViewRoundTrip | components/LiveVoiceAssistant.tsx:39 | an even-length buffer always has an Int16 view, and packing that view gives the buffer back |
| PcmCodec.BlobRoundTrip | components/LiveVoiceAssistant.tsx:52-62 | a blob of n samples carries 2n characters, a binary string, that decode to the samples wrapped to Int16 |
| PcmCodec.BlobRoundTripInRange | components/LiveVoiceAssistant.tsx:52-62 | samples already in the Int16 range come back from a blob unchanged |
| PcmCodec.CreateBlob | components/LiveVoiceAssistant.tsx:52-62 | the blob is the packed samples with the `audio/pcm;rate=16000` type, twice as long as the input, and decodes back to the wrapped samples |
| PcmCodec.Channel | components/LiveVoiceAssistant.tsx:40-47 | channel c has samples / numChannels frames, frame i being interleaved sample i*numChannels + c |
| PcmCodec.FrameCount | components/LiveVoiceAssistant.tsx:40-41 | the whole frames in the view: the sample count divided by the channel count, truncated |
| PcmCodec.BufferShapeOk | components/LiveVoiceAssistant.tsx:41 | whether `createBuffer` accepts the channel count, frame count and rate, by Chromium's limits |
| PcmCodec.DecodedChannels | components/LiveVoiceAssistant.tsx:33-50 | the channel data `decodeAudioData` produces, or the error it throws (computed imperatively by `DecodeAudioData`, described by `MonoDecode`) |
| PcmCodec.InterleavedIndexInRange | components/LiveVoiceAssistant.tsx:45-46 | every index the loop reads lies inside the Int16 view |
| PcmCodec.MonoIsIdentity | components/LiveVoiceAssistant.tsx:40-47 | with one channel, de-interleaving returns the samples unchanged |
| PcmCodec.MonoDecode | components/LiveVoiceAssistant.tsx:33-50 | decoding the packing of at least one sample, mono at a valid rate, yields exactly that one channel |
| PcmCodec.InterleavedIndexInjective | components/LiveVoiceAssistant.tsx:43-47 | two different (channel, frame) positions never read the same sample |
| PcmCodec.InterleavedIndexCovers | components/LiveVoiceAssistant.tsx:40-47 | every sample k of a whole frame appears in the de-interleaved output, as frame k / n of channel k % n |
| PcmCodec.DecodeAudioData | components/LiveVoiceAssistant.tsx:33-50 | throws RangeError on an odd byte count and NotSupportedError when createBuffer refuses the shape; otherwise the buffer has numChannels rows of de-interleaved samples at the given rate |
| Scheduler.CatchUp | components/LiveVoiceAssistant.tsx:126 | the cursor moves up to the output clock when it has fallen behind |
| Scheduler.Enqueue | components/LiveVoiceAssistant.tsx:133-141 | a new source starts at the cursor, the cursor advances by its duration, and the source is tracked (invariant kept by `ArrivalPreservesValid`) |
| Scheduler.StopAll | components/LiveVoiceAssistant.tsx:82-83 | every tracked source is stopped and the set emptied, the cursor kept (`StopAllEffect`) |
| Scheduler.Interrupt | components/LiveVoiceAssistant.tsx:144-148 | barge-in: every tracked source is stopped, the set emptied and the cursor reset to 0 (`InterruptEffect`) |
| Scheduler.Ended | components/LiveVoiceAssistant.tsx:136-138 | a source's `ended` listener removes it from the set (`EndedRemovesOnlyIt`) |
| Scheduler.Burst | components/LiveVoiceAssistant.tsx:126-141 | several segments scheduled one after another with no interrupt between them (shape and ordering proved by `BurstShape` and `BurstBackToBack`) |
| Scheduler.Max | components/LiveVoiceAssistant.tsx:126 | `Math.max`: at least both arguments, and equal to one of them |
| Scheduler.SilentIsValid | components/LiveVoiceAssistant.tsx:11-12 | the initial cursor 0 with no sources satisfies the scheduler invariant |
| Scheduler.ArrivalStart | components/LiveVoiceAssistant.tsx:126-141 | a segment starts at max(cursor, now), so no earlier than now or the old cursor; the new cursor is its end; it joins the tracked set |
| Scheduler.ArrivalPreservesValid | components/LiveVoiceAssistant.tsx:126-141 | scheduling a segment keeps every source ending by the cursor, with fresh distinct ids, and no two tracked sources overlapping |
| Scheduler.CatchUpPreservesValid | components/LiveVoiceAssistant.tsx:126 | moving the cursor up to the clock keeps the invariant |
| Scheduler.EndedRemovesOnlyIt | components/LiveVoiceAssistant.tsx:136-138 | `ended` removes that source, keeps every other one and the cursor, and keeps the invariant |
| Scheduler.InterruptEffect | components/LiveVoiceAssistant.tsx:144-148 | barge-in stops every tracked source, empties the set and puts the cursor at 0 |
| Scheduler.StopAllEffect | components/LiveVoiceAssistant.tsx:82-83 | stopping all sources empties the set, stops each one and leaves the cursor alone |
| Scheduler.BurstShape | components/LiveVoiceAssistant.tsx:126-141 | a burst of segments gives sources in arrival order with consecutive ids and their own durations, none starting before its arrival or the old cursor; the cursor ends at the last one's end |
| Scheduler.BurstRecurrence | components/LiveVoiceAssistant.tsx:126-141 | segment 0 starts at max(cursor, now0); segment k at max(end of segment k-1, now_k) |
| Scheduler.ChainOrdered | components/LiveVoiceAssistant.tsx:139-140 | sources each starting after the previous one ends are ordered pairwise |
| Scheduler.BurstBackToBack | components/LiveVoiceAssistant.tsx:126-141 | segments without an interrupt between them never overlap, and play back to back when each arrives before the previous one ends |
| LiveVoice.Start | components/LiveVoiceAssistant.tsx:88-190 | `startSession`: both contexts are set before the microphone is asked for; a granted one yields the session, a refused one only ends connecting (`StartRefused`) |
| LiveVoice.Open | components/LiveVoiceAssistant.tsx:104-122 | `onopen`: connected, active, and capture running on the input context |
| LiveVoice.Capture | components/LiveVoiceAssistant.tsx:111-118 | `onaudioprocess`: the frame's blob is appended to what was sent |
| LiveVoice.SegmentDuration | components/LiveVoiceAssistant.tsx:127-140 | the duration of a payload decoded as 24 kHz mono, or the error decoding throws (`SegmentDurationPositive`, `OddPayloadThrows`) |
| LiveVoice.PlaySegment | components/LiveVoiceAssistant.tsx:124-142 | the audio part of `onmessage`: nothing without audio, an immediate throw for a model turn without parts, catch-up then a throw for an undecodable payload, catch-up then scheduling otherwise |
| LiveVoice.Receive | components/LiveVoiceAssistant.tsx:123-149 | `onmessage`: the audio part, then the interrupt check unless the audio part threw (`ReceivePreservesValid`, `AudioThenInterrupt`, `BargeIn`) |
| LiveVoice.Stop | components/LiveVoiceAssistant.tsx:64-86 | `stopSession`: session and contexts released, every source stopped, both flags cleared (`StopEndState`, `StopIdempotent`) |
| LiveVoice.ReceiveAll | components/LiveVoiceAssistant.tsx:123-149 | a sequence of messages, each handled by one `onmessage` step |
| LiveVoice.MalformedIgnored | components/LiveVoiceAssistant.tsx:124 | a model turn without `parts` throws at the first read, so the message, its interrupt flag included, changes nothing |
| LiveVoice.MessagesFormBurst | components/LiveVoiceAssistant.tsx:123-149 | any number of decodable uninterrupted messages leave exactly the playback `Burst` describes, and change nothing else |
| LiveVoice.SegmentDurationPositive | components/LiveVoiceAssistant.tsx:127-140 | a decodable payload always has a positive duration |
| LiveVoice.OddPayloadThrows | components/LiveVoiceAssistant.tsx:39 | a payload with an odd byte count throws RangeError |
| LiveVoice.CapturedFramePlaysItsLength | components/LiveVoiceAssistant.tsx:127-132 | a blob of n >= 1 captured Int16 samples, played back, lasts n / 24000 seconds |
| LiveVoice.ReceivePreservesValid | components/LiveVoiceAssistant.tsx:123-149 | every `onmessage` step keeps the widget's and the scheduler's invariant |
| LiveVoice.AudioThenInterrupt | components/LiveVoiceAssistant.tsx:123-149 | a message with both decodable audio and the interrupt flag leaves nothing scheduled, the cursor at 0, and its own new source stopped |
| LiveVoice.UndecodableSkipsInterrupt | components/LiveVoiceAssistant.tsx:125-132 | an undecodable payload moves the cursor up to the clock, schedules nothing and ignores the interrupt flag |
| LiveVoice.BargeIn | components/LiveVoiceAssistant.tsx:144-148 | after an interrupt, the next segment is the only tracked source and starts at its arrival clock |
| LiveVoice.ConsecutiveSegments | components/LiveVoiceAssistant.tsx:126-141 | a second segment is added to the tracked set and starts at max(end of the first, its arrival), never overlapping the first |
| LiveVoice.StopIdempotent | components/LiveVoiceAssistant.tsx:64-86 | calling `stopSession` twice gives the same state as once |
| LiveVoice.StopEndState | components/LiveVoiceAssistant.tsx:64-86 | after `stopSession` nothing is tracked, every old source is stopped, both flags are false, no session or context remains, the cursor is unchanged |
| LiveVoice.StartRefused | components/LiveVoiceAssistant.tsx:186-189 | when the microphone is refused, connecting ends, no session is set and playback is untouched |
| LiveVoice.OperationsPreserveValid | components/LiveVoiceAssistant.tsx:64-157 | start, open, capture, `ended` and stop all keep the invariant |
| LiveVoice.DecodeSegment | components/LiveVoiceAssistant.tsx:127-140 | the duration of the decoded mono 24 kHz buffer, or the error decoding throws |
| LiveVoice.LiveVoiceAssistant.constructor | components/LiveVoiceAssistant.tsx:6-12 | both flags false, no refs, cursor 0 and no sources |
| LiveVoice.LiveVoiceAssistant.StartSession | components/LiveVoiceAssistant.tsx:88-190 | connecting starts and both contexts are set; a granted microphone sets the session, a refused one clears connecting |
| LiveVoice.LiveVoiceAssistant.OnOpen | components/LiveVoiceAssistant.tsx:104-122 | connecting ends, active starts, and capture runs on the input context |
| LiveVoice.LiveVoiceAssistant.OnAudioProcess | components/LiveVoiceAssistant.tsx:111-118 | the captured frame's blob is appended to what was sent |
| LiveVoice.LiveVoiceAssistant.OnMessage | components/LiveVoiceAssistant.tsx:123-149 | the state becomes `Receive` of the old state, keeping the invariant |
| LiveVoice.LiveVoiceAssistant.PlayAudio | components/LiveVoiceAssistant.tsx:124-142 | the new state and whether the handler goes on are `PlaySegment` of the old state: a malformed turn throws at once, otherwise the cursor catches up to the clock and a decodable segment is scheduled |
| LiveVoice.LiveVoiceAssistant.StopSources | components/LiveVoiceAssistant.tsx:82-83 | every tracked source is stopped and the set is emptied |
| LiveVoice.LiveVoiceAssistant.OnEnded | components/LiveVoiceAssistant.tsx:136-138 | the ended source leaves the tracked set |
| LiveVoice.LiveVoiceAssistant.StopSession | components/LiveVoiceAssistant.tsx:64-86 | the state becomes `Stop` of the old state, keeping the invariant |
| LiveVoice.PlaySegmentPreservesValid | components/LiveVoiceAssistant.tsx:124-142 | handling one audio payload, whether it decodes or not, keeps the scheduler's invariant |
| LiveVoice.LiveVoiceAssistant.CatchUpClock | components/LiveVoiceAssistant.tsx:126 | the cursor becomes the later of itself and the output clock; nothing else changes |
| LiveVoice.LiveVoiceAssistant.Schedule | components/LiveVoiceAssistant.tsx:133-141 | a new tracked source starts at the cursor and the cursor advances by its duration; nothing else changes |
| LiveVoice.LiveVoiceAssistant.InterruptPlayback | components/LiveVoiceAssistant.tsx:144-148 | every source is stopped, none is tracked, and the cursor is reset to 0 |
| LiveVoice.LiveVoiceAssistant.ReleaseRefs | components/LiveVoiceAssistant.tsx:65-81 | the session and both audio contexts are released and capture ends; playback is untouched |
| LiveVoice.LiveVoiceAssistant.OnError | components/LiveVoiceAssistant.tsx:150-153 | performs the full `stopSession` |
| LiveVoice.LiveVoiceAssistant.OnClose | components/LiveVoiceAssistant.tsx:154-157 | performs the full `stopSession` |
| LiveVoice.LiveVoiceAssistant.Click | components/LiveVoiceAssistant.tsx:208-210 | with the button enabled, stops an active session and starts an idle one |
| App.Route | App.tsx:57-70 | the route table: each path's element for the current user (per-route facts in `AuthRoute`, `VerifyRoute`, `StoreRoute`, `UnknownPathGoesHome`, `RenderConditions`) |
| App.Mount | App.tsx:21-27 | the mount effect: the stored user, if any, becomes the user, and loading ends (`MountLoadsIffPresent`) |
| App.Logout | App.tsx:29-33 | `handleLogout`: key removed, user cleared, location `/` (`LogoutEffect`) |
| App.UpdateUser | App.tsx:35-42 | `handleUpdateUser`: the key written or removed, and the user replaced (`UpdateUserEffect`) |
| App.Show | App.tsx:44-70 | what the shell renders: the spinner while loading, else the route's element (`SpinnerWhileLoading`) |
| App.LandingAlwaysRenders | App.tsx:58 | `/` renders Landing for any user state |
| App.AuthRoute | App.tsx:59-61 | `/auth` redirects a signed-in user to `/store` and renders Auth otherwise |
| App.VerifyRoute | App.tsx:63-65 | `/verify`: no user goes to `/auth`, a verified user to `/store`, an unverified user sees Verification |
| App.StoreRoute | App.tsx:66-68 | `/store` renders Storefront for a user and redirects to `/auth` otherwise |
| App.UnknownPathGoesHome | App.tsx:69 | any other path redirects to `/` |
| App.RenderConditions | App.tsx:57-70 | each page renders iff its path and guard hold, in both directions |
| App.RedirectSettles | App.tsx:57-70 | a redirect never targets its own path and always lands on a rendering route |
| App.SpinnerWhileLoading | App.tsx:44-50 | the spinner shows iff loading; after the mount effect the routed element shows |
| App.MountLoadsIffPresent | App.tsx:21-27 | on mount the user is loaded iff the key is present, loading ends, storage and location untouched, the shell synced |
| App.LogoutEffect | App.tsx:29-33 | logout removes only the key, clears the user, goes to `/` and then shows Landing |
| App.UpdateUserEffect | App.tsx:35-42 | the key holds exactly the new user (absent for null), which becomes the user; other keys are untouched |
| App.FollowRenders | App.tsx:57-70 | following one redirect reaches a rendered page, changing neither user nor storage |
| App.NewUserJourney | App.tsx:35-68 | a newly stored unverified user is sent from `/auth` to `/store`, sees Verification at `/verify` and the storefront at `/store` |
| App.Shell.constructor | App.tsx:15-17 | the first render: no user, loading, the spinner |
| App.Shell.OnMount | App.tsx:21-27 | the state becomes `Mount` of the old state |
| App.Shell.HandleLogout | App.tsx:29-33 | the state becomes `Logout` of the old state |
| App.Shell.HandleUpdateUser | App.tsx:35-42 | the state becomes `UpdateUser` of the old state |
| App.Shell.FollowRedirect | App.tsx:57-70 | a `<Navigate>` element moves the location to its target |
| Auth.ApplyChange | pages/Auth.tsx:46-52 | `handleInputChange`: the field named by the input takes its value, or `checked` for the checkbox (`ChangeOnlyNamedField`) |
| Auth.DisplayName | pages/Auth.tsx:35 | the typed name, or the mode's placeholder when it is empty (`NewUserFields`) |
| Auth.NewUser | pages/Auth.tsx:33-39 | the user the timer callback builds from the submitted form (`NewUserFields`) |
| Auth.Submit | pages/Auth.tsx:20-30 | the synchronous part of `handleSubmit`: the consent guard, or queueing the form's snapshot (`NoConsentNoUser`, `SignInNeverBlocked`, `SubmitClearsError`) |
| Auth.Fire | pages/Auth.tsx:32-43 | the timer callback: the earliest snapshot becomes a user and loading ends (`StepsPreserveConsistent`) |
| Auth.ChangeOnlyNamedField | pages/Auth.tsx:46-52 | a change event sets exactly the named field, `checked` for the checkbox and `value` otherwise |
| Auth.ChangeIdempotent | pages/Auth.tsx:46-52 | replaying a change event changes nothing more |
| Auth.ToggleFlips | pages/Auth.tsx:149 | the toggle flips the mode, and twice restores it |
| Auth.NoConsentNoUser | pages/Auth.tsx:25-29 | sign-up without consent shows the consent error, ends loading and queues no callback |
| Auth.SignInNeverBlocked | pages/Auth.tsx:25 | sign-in queues its callback whatever the consent flag |
| Auth.SubmitClearsError | pages/Auth.tsx:22-29 | after a submit the error is empty unless the consent guard fired; loading is on iff it did not |
| Auth.NewUserFields | pages/Auth.tsx:33-39 | the user has the form's email, is unverified, and is named by the form or else 'New User' / 'Returning User' by mode |
| Auth.InitialConsistent | pages/Auth.tsx:10-18 | the first render satisfies the form invariant |
| Auth.StepsPreserveConsistent | pages/Auth.tsx:20-52 | every step keeps the invariant: loading iff one callback is queued, and queued submissions all passed the guard |
| Auth.AuthForm.constructor | pages/Auth.tsx:10-18 | sign-up mode, empty form, no error, not loading |
| Auth.AuthForm.HandleInputChange | pages/Auth.tsx:46-52 | the state becomes `Change` of the old state |
| Auth.AuthForm.ToggleMode | pages/Auth.tsx:149 | the state becomes `Toggle` of the old state |
| Auth.AuthForm.HandleSubmit | pages/Auth.tsx:20-44 | the state becomes `Submit` of the old state |
| Auth.AuthForm.TimerFires | pages/Auth.tsx:32-43 | loading ends and the returned user is built from the queued snapshot |
| Verification.Verified | pages/Verification.tsx:17 | the user record marked verified (`VerifiedRecord`) |
| Verification.Verify | pages/Verification.tsx:13-15 | `handleVerify`: the spinner starts and its timer is queued (`StepsKeepSettles`, `FlagSequence`) |
| Verification.Resend | pages/Verification.tsx:23-25 | `resendEmail`: the banner hides and its timer is queued (`StepsKeepSettles`, `FlagSequence`) |
| Verification.VerifiedRecord | pages/Verification.tsx:17 | the record is verified, its other fields are kept, and verifying is idempotent |
| Verification.InitialSettles | pages/Verification.tsx:10-11 | the page starts with the banner shown and no spinner |
| Verification.StepsKeepSettles | pages/Verification.tsx:13-26 | the spinner is on only while a verify timer is queued, the banner off only while a resend timer is |
| Verification.FlagSequence | pages/Verification.tsx:13-26 | `verifying` is on until its timer fires; `sent` goes off and back on; neither touches the other |
| Verification.VerificationPage.constructor | pages/Verification.tsx:9-11 | the page's initial flags for the given user |
| Verification.VerificationPage.HandleVerify | pages/Verification.tsx:13-21 | the state becomes `Verify` of the old state |
| Verification.VerificationPage.VerifyTimerFires | pages/Verification.tsx:16-20 | the spinner stops and the user passed on is the verified record |
| Verification.VerificationPage.ResendEmail | pages/Verification.tsx:23-26 | the state becomes `Resend` of the old state |
| Verification.VerificationPage.ResendTimerFires | pages/Verification.tsx:25 | the state becomes `ResendFires` of the old state |
| ChatLog.Trim | components/AIAssistant.tsx:71 | `String.prototype.trim`: leading, then trailing whitespace removed (`TrimEmptyIffBlank`) |
| ChatLog.TrimStart | components/AIAssistant.tsx:71 | the result is a suffix of the input that starts with no whitespace, and what was dropped is all whitespace |
| ChatLog.TrimEnd | components/AIAssistant.tsx:71 | the result is a prefix of the input that ends with no whitespace, and what was dropped is all whitespace |
| ChatLog.TrimEmptyIffBlank | components/AIAssistant.tsx:71 | `trim` gives the empty string iff every character is whitespace |
| ChatLog.Find | components/AIAssistant.tsx:120 | the leftmost occurrence of the phrase at or after a position, or none |
| ChatLog.Split | components/AIAssistant.tsx:120 | an odd number of parts whose concatenation is the content; odd parts are the phrase and even parts never contain it |
| ChatLog.RenderFaithful | components/AIAssistant.tsx:119-126 | the rendered fragments read as the content and exactly the odd-indexed ones, the phrase, are highlighted (the same split as pages/AIAssistant.tsx:68-75) |
| ChatLog.NoPhraseOnePart | components/AIAssistant.tsx:119-126 | content without the phrase renders as one plain node |
| ChatLog.Render | components/AIAssistant.tsx:119-126 | `renderMessageContent`: the split parts, each one equal to the phrase highlighted (`RenderFaithful`) |
| ChatLog.Refused | components/AIAssistant.tsx:71 | the guard of `handleSend`: the trimmed input is empty, or a reply is pending (`SendGuard`, `CheckRefused`) |
| ChatLog.Send | components/AIAssistant.tsx:70-76 | the synchronous part of `handleSend` (`SendGuard`, `SendAppends`, `SendKeepsAlternation`) |
| ChatLog.ReplyText | components/AIAssistant.tsx:109-113 | the reply's text, the fallback for an empty reply, or the failure text (`SettleAppendsOne`) |
| ChatLog.Settle | components/AIAssistant.tsx:109-116 | the rest of `handleSend` once the call settles: one assistant message, loading off (`SettleAppendsOne`, `SettleKeepsAlternation`) |
| ChatLog.SendGuard | components/AIAssistant.tsx:71 | a blank input or a send while loading leaves the chat unchanged |
| ChatLog.SendAppends | components/AIAssistant.tsx:73-76 | a send appends the input verbatim as a user message, clears the input and starts loading |
| ChatLog.SettleAppendsOne | components/AIAssistant.tsx:109-115 | exactly one assistant message is appended: the reply, the fallback for an empty reply, or the failure text; loading ends |
| ChatLog.StepsKeepAlternation | components/AIAssistant.tsx:70-117 | the log is the greeting then alternating user and assistant messages, ending in a user message iff loading |
| ChatLog.SendKeepsAlternation | components/AIAssistant.tsx:70-76 | a send, accepted or refused, keeps the log alternating |
| ChatLog.SettleKeepsAlternation | components/AIAssistant.tsx:109-116 | a reply arriving while loading keeps the log alternating |
| ChatLog.CheckRefused | components/AIAssistant.tsx:71 | the guard refuses exactly an input made only of whitespace (the empty one included) or a send while loading |
| ChatLog.AppendOnly | components/AIAssistant.tsx:70-117 | over any run of events every earlier message stays, unchanged, at its place |
| ChatWidget.Merge | components/AIAssistant.tsx:37 | a non-empty input is kept and followed by a space and the transcript; an empty one becomes the transcript |
| ChatWidget.Heard | components/AIAssistant.tsx:35-39 | `onresult`: the transcript merged into the input, listening off (`SpeechLeavesLog`) |
| ChatWidget.Toggle | components/AIAssistant.tsx:52-68 | `toggleListening`: nothing without support, `stop()` while listening, otherwise listening unless `start()` throws (`SpeechLeavesLog`) |
| ChatWidget.SpeechLeavesLog | components/AIAssistant.tsx:35-68 | speech events never touch the log or loading; a result or end clears listening; the toggle starts listening only when supported and `start()` does not throw |
| ChatWidget.TwoUtterances | components/AIAssistant.tsx:37 | two transcripts into an empty input read as the first, a space, the second |
| ChatWidget.Widget.constructor | components/AIAssistant.tsx:11-17 | the log is the widget's greeting alone, not loading, not listening |
| ChatWidget.Widget.OnInputChange | components/AIAssistant.tsx:194 | the input takes the typed text |
| ChatWidget.Widget.HandleSend | components/AIAssistant.tsx:70-76 | the chat becomes `Send` of the old chat |
| ChatWidget.Widget.OnReply | components/AIAssistant.tsx:109-116 | the chat becomes `Settle` of the old chat with the widget's texts |
| ChatWidget.Widget.OnResult | components/AIAssistant.tsx:35-39 | the transcript is merged into the input and listening ends |
| ChatWidget.Widget.OnEnd | components/AIAssistant.tsx:41-48 | listening ends |
| ChatWidget.Widget.ToggleListening | components/AIAssistant.tsx:52-68 | the state becomes `Toggle` of the old state |
| ChatPage.Page.constructor | pages/AIAssistant.tsx:12-16 | the log starts as the page's single assistant greeting |
| ChatPage.Page.OnInputChange | pages/AIAssistant.tsx:142 | the input takes the typed text |
| ChatPage.Page.HandleSend | pages/AIAssistant.tsx:25-31 | the chat becomes `Send` of the old chat |
| ChatPage.Page.OnReply | pages/AIAssistant.tsx:58-65 | the chat becomes `Settle` of the old chat with the page's texts |

## Left out

- `atob` and `btoa` are not modelled. Inline audio is either missing, a model turn without `parts` whose read throws (`Malformed`), rejected by `atob` (`Undecodable`), or the binary string `atob` returns. Blob data is the binary string before `btoa`.
- Floating point is not modelled, because samples are integers:
  - the `* 32768` capture scaling;
  - the `/ 32768.0` playback scaling;
  - fractional `frameCount` values.
    `createBuffer` truncates a fractional length to the whole frames modelled here. The loop over the fractional bound runs one extra time and also reads the trailing partial frame; its writes fall past the end of the channel array and are discarded, so the buffer is the same.
- The remote calls are left out: `generateContent`, `ai.live.connect`, the sending of blobs, and the system instructions. Replies and server messages are parameters. Sent blobs are recorded in order in `sent`.
- Browser audio and devices are left out: `getUserMedia`, the AudioContext graph, `createBufferSource`, `source.start`, and the closing of contexts. A source is an id with a start time and a duration. The clock `outputCtx.currentTime` is a parameter.
- The interleaving of asynchronous handlers is left out. Each handler is one atomic step. This covers an `onmessage` suspended at its `await` while another runs, and the `await` at the start of `stopSession`.
- Timer delays are left out. Only the order of "queued" and "fired" is modelled.
- `Math.random` ids and `new Date()` timestamps are parameters.
- JSON serialisation in local storage is taken to be the identity. A corrupt stored value, which would make `JSON.parse` throw, is not modelled.
- App.Route: paths match exactly. The router's case-insensitive matching and its optional trailing slash are not modelled.
- Auth.AuthForm.HandleSubmit: the browser's `required`-field validation is not modelled. That validation keeps the submit event from firing while a visible required input is empty or the `type="email"` input holds a malformed address; the model takes every submit to reach the handler.
- Auth.AuthForm.HandleSubmit and Verification.VerificationPage.HandleVerify require the button to be enabled, as the `disabled` attribute ensures.
- After `onAuthSuccess` the shell redirects away from `/auth` and the form unmounts. The callback's final `setLoading(false)` is still modelled as a change to the form object.
- `alert`, `console` logging, scrolling, the open/closed toggles of the chat panels and all presentational markup are left out.
- The pages `Landing.tsx` and `Storefront.tsx` and the `Navbar` and `Footer` components are not part of this model.
