/**
 * The running request layer of src/app.ts: every outbound GET is appended to
 * `trace`, and every `setTimeout` follow-up waits in `pending` until the
 * environment fires it. The handler and timer methods are proved to do what
 * the matching function of module Handlers describes; the single-call helpers
 * append their Device URL and return the oracle's reply to it.
 */
module Gateway {
  import opened Device
  import opened Responses
  import opened Validation
  import opened Handlers

  class Gateway {
    /** `config.FPPUrl` */
    const base: string
    /** `encodeURIComponent`, left uninterpreted */
    const encode: string -> string
    /** The device */
    const device: Oracle

    /** Every outbound call so far, oldest first */
    var trace: seq<Url>
    /** Scheduled timer callbacks that have not fired yet, in firing order */
    var pending: seq<FollowUp>

    constructor (base: string, encode: string -> string, device: Oracle)
      ensures this.base == base && this.encode == encode && this.device == device
      ensures trace == [] && pending == []
    {
      this.base := base;
      this.encode := encode;
      this.device := device;
      trace := [];
      pending := [];
    }

    /** One `fetch(url, { method: 'GET', ... })`, awaited */
    method Fetch(url: Url) returns (reply: Reply)
      modifies this
      ensures trace == old(trace) + [url] && pending == old(pending)
      ensures reply == device(old(trace), url)
    {
      reply := device(trace, url);
      trace := trace + [url];
    }

    /** `stopCurrentSequence()` */
    method StopCurrentSequence() returns (reply: Reply)
      modifies this
      ensures trace == old(trace) + [StopCurrentUrl(base)] && pending == old(pending)
      ensures reply == device(old(trace), StopCurrentUrl(base))
    {
      reply := Fetch(StopCurrentUrl(base));
    }

    /** `startSequence(name)`; a thrown stop is rethrown before the start is sent */
    method StartSequence(name: string) returns (reply: Reply)
      modifies this
      ensures var e := StartSequenceEffect(device, old(trace), base, encode, name);
        trace == old(trace) + e.calls && reply == e.reply
      ensures pending == old(pending)
    {
      var stop := StopCurrentSequence();
      if stop.TransportFailure? {
        reply := stop;
        return;
      }
      reply := Fetch(StartUrl(base, encode, name));
    }

    /** `sendCommandPreset(slot)` */
    method SendCommandPreset(slot: string) returns (reply: Reply)
      modifies this
      ensures trace == old(trace) + [PresetUrl(base, encode, slot)] && pending == old(pending)
      ensures reply == device(old(trace), PresetUrl(base, encode, slot))
    {
      reply := Fetch(PresetUrl(base, encode, slot));
    }

    /** `POST /api/sequence/:name/start` */
    method PostSequenceStart(name: string) returns (response: HttpResponse)
      modifies this
      ensures var h := SequenceStartSpec(device, old(trace), base, encode, name);
        trace == old(trace) + h.calls && pending == old(pending) + h.queued && response == h.response
    {
      if !ValidSequenceName(name) {
        response := InvalidNameResponse;
        return;
      }
      var reply := StartSequence(name);
      response := RespondTo(reply);
    }

    /** `POST /api/command-preset/:slot` */
    method PostCommandPreset(slot: string) returns (response: HttpResponse)
      modifies this
      ensures var h := CommandPresetSpec(device, old(trace), base, encode, slot);
        trace == old(trace) + h.calls && pending == old(pending) + h.queued && response == h.response
    {
      if !ValidSlot(slot) {
        response := InvalidSlotResponse;
        return;
      }
      var reply := SendCommandPreset(slot);
      if slot == "1" && reply.Response? {
        pending := pending + [FadeOutTail];
      }
      response := RespondTo(reply);
    }

    /** The earliest pending timer fires; its outcome goes nowhere */
    method FireNextTimer() returns (fired: bool)
      modifies this
      ensures fired <==> old(pending) != []
      ensures !fired ==> trace == old(trace) && pending == old(pending)
      ensures fired ==> pending == old(pending)[1..]
      ensures fired ==> trace == old(trace) + FollowUpCalls(device, old(trace), base, encode, old(pending)[0])
    {
      if pending == [] {
        fired := false;
        return;
      }
      fired := true;
      pending := pending[1..];
      var stop := StopCurrentSequence();
      if stop.TransportFailure? {
        return;
      }
      var _ := SendCommandPreset(FollowUpSlot);
    }
  }

  /**
   * Two fade-out requests in a row, against a device that always answers,
   * schedule two independent follow-ups: nothing deduplicates them.
   */
  method TwoFadeOuts(base: string, encode: string -> string, device: Oracle)
    returns (calls: seq<Url>, queued: nat)
    requires AlwaysAnswers(device)
    ensures queued == 2
    ensures calls == [PresetUrl(base, encode, "1"), PresetUrl(base, encode, "1")]
  {
    var g := new Gateway(base, encode, device);
    assert ValidSlot("1") by { ValidSlotIff("1"); }
    var _ := g.PostCommandPreset("1");
    var _ := g.PostCommandPreset("1");
    calls, queued := g.trace, |g.pending|;
  }
}
