/** The create-source request body built by the connect handler. */
module Sources {
  import opened Types

  /** Starts from `{ type }`, adds `url` for an RTSP source and `deviceId` for
      a USB source, each only when the typed-in value is non-empty. */
  function SourcePayload(kind: SourceType, value: string): (p: map<string, string>)
    ensures "type" in p && p["type"] == TypeName(kind)
    ensures "url" in p <==> kind == Rtsp && value != ""
    ensures "deviceId" in p <==> kind == Usb && value != ""
    ensures "url" in p ==> p["url"] == value
    ensures "deviceId" in p ==> p["deviceId"] == value
    ensures p.Keys <= {"type", "url", "deviceId"}
  {
    var typed := map["type" := TypeName(kind)];
    var withUrl := if kind == Rtsp && value != "" then typed["url" := value] else typed;
    if kind == Usb && value != "" then withUrl["deviceId" := value] else withUrl
  }

  /** The part of the typed-in value that reaches the service. */
  function Locator(kind: SourceType, value: string): Option<string> {
    if (kind == Rtsp || kind == Usb) && value != "" then Some(value) else None
  }

  /** Two connects send the same body exactly when they name the same source
      type and the same effective locator. */
  lemma SourcePayloadDeterminesSource(k1: SourceType, v1: string, k2: SourceType, v2: string)
    ensures SourcePayload(k1, v1) == SourcePayload(k2, v2) <==>
            k1 == k2 && Locator(k1, v1) == Locator(k2, v2)
  {
  }
}
