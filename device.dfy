/**
 * The lighting device as the gateway sees it: the URLs it addresses
 * (`stopCurrentSequence`, `startSequence`, `sendCommandPreset` in
 * src/app.ts) and what one outbound GET can come back with.
 */
module Device {
  import opened Wrappers

  type Url = string

  /**
   * What awaiting one `fetch` yields: a response, whose body text may be
   * unreadable (`None`), or a thrown transport error with its `name` and
   * `message`.
   */
  datatype Reply =
    | Response(status: int, body: Option<string>)
    | TransportFailure(name: string, message: string)

  /**
   * The device, abstractly: the reply to a GET of `url` may depend on every
   * call issued before it (`history`, oldest first).
   */
  type Oracle = (seq<Url>, Url) -> Reply

  /** `Response.ok` */
  predicate IsOk(status: int) {
    200 <= status <= 299
  }

  /** `await resp.text().catch(() => '')` */
  function BodyText(body: Option<string>): string {
    body.GetOr("")
  }

  /** The command name `sendCommandPreset` triggers */
  const PresetCommand: string := "Trigger Command Preset Slot"

  /** The slot the fade-out follow-up triggers */
  const FollowUpSlot: string := "3"

  /** `${FPPUrl}/api/sequence/current/stop` */
  function StopCurrentUrl(base: string): Url {
    base + "/api/sequence/current/stop"
  }

  /** `${FPPUrl}/api/sequence/${encodeURIComponent(name)}/start` */
  function StartUrl(base: string, encode: string -> string, name: string): Url {
    base + "/api/sequence/" + encode(name) + "/start"
  }

  /** `${FPPUrl}/api/command/${encodeURIComponent(command)}/${slot}`, the slot inserted unencoded */
  function PresetUrl(base: string, encode: string -> string, slot: string): Url {
    base + "/api/command/" + encode(PresetCommand) + "/" + slot
  }

  /** A start call can never be mistaken for the stop call: they end in "/start" and "/stop" */
  lemma StartAndStopUrlsDiffer(base: string, encode: string -> string, name: string)
    ensures StartUrl(base, encode, name) != StopCurrentUrl(base)
  {
    var start, stop := StartUrl(base, encode, name), StopCurrentUrl(base);
    assert start[|start| - 2] == 'r';
    assert stop[|stop| - 2] == 'o';
  }

  /** Different slots reach different preset URLs, so the follow-up's slot 3 is not a repeat of slot 1 */
  lemma PresetUrlInjective(base: string, encode: string -> string, a: string, b: string)
    ensures PresetUrl(base, encode, a) == PresetUrl(base, encode, b) <==> a == b
  {
    var prefix := base + "/api/command/" + encode(PresetCommand) + "/";
    assert PresetUrl(base, encode, a) == prefix + a;
    assert PresetUrl(base, encode, b) == prefix + b;
    if prefix + a == prefix + b {
      assert a == (prefix + a)[|prefix|..];
      assert b == (prefix + b)[|prefix|..];
    }
  }
}
