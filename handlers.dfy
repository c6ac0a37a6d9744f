/**
 * What each step of src/app.ts's request layer does, as functions of the
 * device oracle and of the calls issued so far: the URLs it sends, the
 * follow-ups it schedules, and the response it gives. The Gateway class
 * performs these steps and is proved to agree with them.
 */
module Handlers {
  import opened Device
  import opened Responses
  import opened Validation

  /** A pending `setTimeout` callback; the only one the source schedules stops the current sequence, then triggers slot 3 */
  datatype FollowUp = FadeOutTail

  /** The calls one async helper issued, and the reply it resolved to, or the error it threw */
  datatype Effect = Effect(calls: seq<Url>, reply: Reply)

  /** What one handler invocation did: calls issued, follow-ups scheduled, response sent */
  datatype Handled = Handled(calls: seq<Url>, queued: seq<FollowUp>, response: HttpResponse)

  /** `startSequence(name)`: await the stop; if it threw, the start is never sent */
  function StartSequenceEffect(device: Oracle, history: seq<Url>, base: string, encode: string -> string, name: string): (e: Effect)
    ensures 1 <= |e.calls| <= 2 && e.calls[0] == StopCurrentUrl(base)
    ensures |e.calls| == 2 <==> device(history, StopCurrentUrl(base)).Response?
    ensures |e.calls| == 1 ==> e.reply == device(history, StopCurrentUrl(base))
    ensures |e.calls| == 2 ==> e.calls[1] == StartUrl(base, encode, name)
    ensures |e.calls| == 2 ==> e.reply == device(history + [StopCurrentUrl(base)], StartUrl(base, encode, name))
  {
    var stop := device(history, StopCurrentUrl(base));
    if stop.TransportFailure? then Effect([StopCurrentUrl(base)], stop)
    else
      var start := StartUrl(base, encode, name);
      Effect([StopCurrentUrl(base), start], device(history + [StopCurrentUrl(base)], start))
  }

  /** `POST /api/sequence/:name/start` */
  function SequenceStartSpec(device: Oracle, history: seq<Url>, base: string, encode: string -> string, name: string): (h: Handled)
    ensures h.queued == []
    ensures !ValidSequenceName(name) ==> h.calls == [] && h.response == InvalidNameResponse
    ensures ValidSequenceName(name) ==> h.calls != [] && h.calls[0] == StopCurrentUrl(base)
    ensures ValidSequenceName(name) && device(history, StopCurrentUrl(base)).Response? ==>
      h.calls == [StopCurrentUrl(base), StartUrl(base, encode, name)]
      && h.response == RespondTo(device(history + [StopCurrentUrl(base)], StartUrl(base, encode, name)))
    ensures ValidSequenceName(name) && device(history, StopCurrentUrl(base)).TransportFailure? ==>
      h.calls == [StopCurrentUrl(base)] && h.response == RespondTo(device(history, StopCurrentUrl(base)))
  {
    if !ValidSequenceName(name) then Handled([], [], InvalidNameResponse)
    else
      var e := StartSequenceEffect(device, history, base, encode, name);
      Handled(e.calls, [], RespondTo(e.reply))
  }

  /** `POST /api/command-preset/:slot`; slot "1" schedules the fade-out tail once its call has not thrown */
  function CommandPresetSpec(device: Oracle, history: seq<Url>, base: string, encode: string -> string, slot: string): (h: Handled)
    ensures !ValidSlot(slot) ==> h.calls == [] && h.queued == [] && h.response == InvalidSlotResponse
    ensures ValidSlot(slot) ==> h.calls == [PresetUrl(base, encode, slot)]
    ensures ValidSlot(slot) ==> h.response == RespondTo(device(history, PresetUrl(base, encode, slot)))
    ensures |h.queued| <= 1
    ensures h.queued != [] <==> slot == "1" && device(history, PresetUrl(base, encode, slot)).Response?
  {
    if !ValidSlot(slot) then Handled([], [], InvalidSlotResponse)
    else
      var url := PresetUrl(base, encode, slot);
      var reply := device(history, url);
      Handled([url], if slot == "1" && reply.Response? then [FadeOutTail] else [], RespondTo(reply))
  }

  /** The timer callback: `await stopCurrentSequence(); await sendCommandPreset('3')`; a thrown stop skips slot 3 */
  function FollowUpCalls(device: Oracle, history: seq<Url>, base: string, encode: string -> string, f: FollowUp): (calls: seq<Url>)
    ensures 1 <= |calls| <= 2 && calls[0] == StopCurrentUrl(base)
    ensures |calls| == 2 <==> device(history, StopCurrentUrl(base)).Response?
    ensures |calls| == 2 ==> calls[1] == PresetUrl(base, encode, FollowUpSlot)
  {
    if device(history, StopCurrentUrl(base)).TransportFailure? then [StopCurrentUrl(base)]
    else [StopCurrentUrl(base), PresetUrl(base, encode, FollowUpSlot)]
  }

  /** A device that never throws */
  ghost predicate AlwaysAnswers(device: Oracle) {
    forall history, url :: device(history, url).Response?
  }

  /**
   * Against a device that always answers, the fade-out request and its
   * timer together send exactly: slot 1, stop-current, slot 3, in that order,
   * whatever calls other requests made in between.
   */
  lemma FadeOutSendsThreeCalls(device: Oracle, history: seq<Url>, between: seq<Url>, base: string, encode: string -> string)
    requires AlwaysAnswers(device)
    ensures var h := CommandPresetSpec(device, history, base, encode, "1");
      h.queued == [FadeOutTail]
      && h.calls + FollowUpCalls(device, history + h.calls + between, base, encode, h.queued[0])
         == [PresetUrl(base, encode, "1"), StopCurrentUrl(base), PresetUrl(base, encode, FollowUpSlot)]
  {
    assert ValidSlot("1") by { ValidSlotIff("1"); }
    assert device(history, PresetUrl(base, encode, "1")).Response?;
    var h := CommandPresetSpec(device, history, base, encode, "1");
    assert device(history + h.calls + between, StopCurrentUrl(base)).Response?;
  }

  /** Only the exact string "1" schedules a follow-up: "01" or "10" trigger their slot once and nothing else */
  lemma OnlySlotOneSchedules(device: Oracle, history: seq<Url>, base: string, encode: string -> string, slot: string)
    requires slot != "1"
    ensures CommandPresetSpec(device, history, base, encode, slot).queued == []
  {
  }

  /** Whether the stop succeeded, failed upstream or answered non-2xx, a start request always tried to stop first */
  lemma StopPrecedesStart(device: Oracle, history: seq<Url>, base: string, encode: string -> string, name: string, k: nat)
    requires var h := SequenceStartSpec(device, history, base, encode, name); k < |h.calls| && h.calls[k] == StartUrl(base, encode, name)
    ensures k == 1 && SequenceStartSpec(device, history, base, encode, name).calls[0] == StopCurrentUrl(base)
  {
    var h := SequenceStartSpec(device, history, base, encode, name);
    if k == 0 {
      StartAndStopUrlsDiffer(base, encode, name);
    }
  }
}
