/**
 * The TR-069 (CWMP) side of the server: the device registry of
 * `TR069Server`, the SOAP envelope and the GetParameterValues /
 * SetParameterValues request bodies it writes, and the host taken from a
 * connection-request URL.
 */
module Tr069 {
  import opened Wrappers
  import opened PyStrings
  import opened Monitoring

  /** `TR069Device`; `status` is `"online"` unless given. */
  datatype Tr069Device = Tr069Device(
    deviceId: string,
    macAddress: string,
    serialNumber: string,
    manufacturer: string,
    modelName: string,
    softwareVersion: string,
    ipAddress: string,
    connectionRequestUrl: string,
    lastInform: string,
    parameterList: map<string, string>,
    status: string)

  /** The parameters among `names` that `params` holds, with their values (`get_device_parameters`'s loop). */
  function Selected(params: map<string, string>, names: seq<string>): map<string, string> {
    map n | n in names && n in params :: params[n]
  }

  /** What `get_device_parameters(device_id, names)` returns for the registry `devices`. */
  function Lookup(devices: map<string, Tr069Device>, deviceId: string, names: seq<string>): Option<map<string, string>> {
    if deviceId in devices then Some(Selected(devices[deviceId].parameterList, names)) else None
  }

  class Tr069Server {
    const acsUrl: string
    /** `self.registered_devices` */
    var registeredDevices: map<string, Tr069Device>

    constructor (acsUrl: string)
      ensures this.acsUrl == acsUrl && registeredDevices == map[]
    {
      this.acsUrl := acsUrl;
      registeredDevices := map[];
    }

    /** `register_device(device)`: a device registered again replaces the old entry. */
    method RegisterDevice(device: Tr069Device)
      modifies this
      ensures registeredDevices == old(registeredDevices)[device.deviceId := device]
    {
      registeredDevices := registeredDevices[device.deviceId := device];
    }

    /**
     * `get_device_parameters(device_id, parameter_names)`: `None` for an
     * unknown device; otherwise exactly the requested names the device
     * reported, with the values it reported.
     */
    method GetDeviceParameters(deviceId: string, names: seq<string>) returns (r: Option<map<string, string>>)
      ensures r.None? <==> deviceId !in registeredDevices
      ensures r.Some? ==>
        var params := registeredDevices[deviceId].parameterList;
        && (forall n :: n in r.value <==> n in names && n in params)
        && (forall n :: n in r.value ==> r.value[n] == params[n])
      ensures r == Lookup(registeredDevices, deviceId, names)
    {
      if deviceId !in registeredDevices {
        return None;
      }
      var params := registeredDevices[deviceId].parameterList;
      var result: map<string, string> := map[];
      for i := 0 to |names|
        invariant forall n :: n in result <==> n in names[..i] && n in params
        invariant forall n :: n in result ==> result[n] == params[n]
      {
        assert names[..i + 1] == names[..i] + [names[i]];
        if names[i] in params {
          result := result[names[i] := params[names[i]]];
        }
      }
      assert names[..|names|] == names;
      assert result == Selected(params, names);
      return Some(result);
    }
  }

  /** Registering a device makes its parameters readable, and leaves every other device as it was. */
  lemma RegisterThenLookup(devices: map<string, Tr069Device>, d: Tr069Device, id: string, names: seq<string>)
    ensures Lookup(devices[d.deviceId := d], d.deviceId, names) == Some(Selected(d.parameterList, names))
    ensures id != d.deviceId ==> Lookup(devices[d.deviceId := d], id, names) == Lookup(devices, id, names)
  {
  }

  /** Asking for no names, or only for names the device lacks, gives an empty map. */
  lemma LookupNothing(params: map<string, string>, names: seq<string>)
    requires forall n :: n in names ==> n !in params
    ensures Selected(params, names) == map[]
  {
  }

  // ---------------------------------------------------------------------
  // SOAP envelope

  /** `create_soap_envelope`'s header: the session ID element, iff the ID is non-empty. */
  function SoapHeader(sessionId: Option<string>): string {
    if Truthy(sessionId) then "<cwmp:ID soap:mustUnderstand=\"1\">" + sessionId.value + "</cwmp:ID>" else ""
  }

  const EnvelopeHead: string :=
    "<?xml version=\"1.0\" encoding=\"UTF-8\"?>\n"
    + "<soap:Envelope xmlns:soap=\"http://schemas.xmlsoap.org/soap/envelope/\"\n"
    + "               xmlns:cwmp=\"urn:dslforum-org:cwmp-1-0\">\n"
    + "    <soap:Header>\n"
    + "        "
  const EnvelopeMiddle: string :=
    "\n    </soap:Header>\n"
    + "    <soap:Body>\n"
    + "        "
  const EnvelopeTail: string :=
    "\n    </soap:Body>\n"
    + "</soap:Envelope>"

  /** `create_soap_envelope(body_content, session_id)` */
  function SoapEnvelope(body: string, sessionId: Option<string>): (e: string)
    ensures |e| == |EnvelopeHead| + |SoapHeader(sessionId)| + |EnvelopeMiddle| + |body| + |EnvelopeTail|
    ensures StartsWith(e, EnvelopeHead)
  {
    var e := EnvelopeHead + SoapHeader(sessionId) + EnvelopeMiddle + body + EnvelopeTail;
    assert e[..|EnvelopeHead|] == EnvelopeHead;
    e
  }

  /** Where the body starts in an envelope for `sessionId`. */
  function BodyStart(sessionId: Option<string>): nat {
    |EnvelopeHead| + |SoapHeader(sessionId)| + |EnvelopeMiddle|
  }

  /** The body cut back out of an envelope. */
  function EnvelopeBody(envelope: string, sessionId: Option<string>): string
    requires BodyStart(sessionId) + |EnvelopeTail| <= |envelope|
  {
    envelope[BodyStart(sessionId)..|envelope| - |EnvelopeTail|]
  }

  /**
   * The body and the session ID can be read back: the envelope holds the
   * body verbatim between fixed text, and the header holds the ID iff it is
   * non-empty.
   */
  lemma EnvelopeRoundTrip(body: string, sessionId: Option<string>)
    ensures var e := SoapEnvelope(body, sessionId);
      && BodyStart(sessionId) + |EnvelopeTail| <= |e|
      && EnvelopeBody(e, sessionId) == body
      && StartsWith(e, EnvelopeHead)
      && e[|e| - |EnvelopeTail|..] == EnvelopeTail
    ensures SoapHeader(sessionId) == "" <==> !Truthy(sessionId)
  {
    var e := SoapEnvelope(body, sessionId);
    var pre := EnvelopeHead + SoapHeader(sessionId) + EnvelopeMiddle;
    assert e == pre + body + EnvelopeTail;
    assert e[..|EnvelopeHead|] == EnvelopeHead;
    assert e[|pre|..|e| - |EnvelopeTail|] == body;
    assert e[|e| - |EnvelopeTail|..] == EnvelopeTail;
  }

  /** Two requests in the same session with the same envelope carry the same body. */
  lemma EnvelopeInjective(b1: string, b2: string, sessionId: Option<string>)
    requires SoapEnvelope(b1, sessionId) == SoapEnvelope(b2, sessionId)
    ensures b1 == b2
  {
    EnvelopeRoundTrip(b1, sessionId);
    EnvelopeRoundTrip(b2, sessionId);
  }

  // ---------------------------------------------------------------------
  // Reading back XML element text (for the round trips below)

  /** After `open`, the text up to the next `<` and what follows it. */
  function Cut(s: string, open: string): (r: Option<(string, string)>)
    ensures r.Some? ==> |r.value.0| + |r.value.1| + |open| == |s|
  {
    if StartsWith(s, open) then
      var t := s[|open|..];
      var x := TakeUntil(t, '<');
      Some((x, t[|x|..]))
    else None
  }

  lemma TakeUntilPrefix(x: string, rest: string, c: char)
    requires c !in x && rest != [] && rest[0] == c
    ensures TakeUntil(x + rest, c) == x
    decreases |x|
  {
    if x != [] {
      assert (x + rest)[1..] == x[1..] + rest;
      TakeUntilPrefix(x[1..], rest, c);
    }
  }

  /** Text with no `<`, followed by an element tag, is cut back out exactly. */
  lemma CutItem(open: string, x: string, rest: string)
    requires '<' !in x && rest != [] && rest[0] == '<'
    ensures Cut(open + x + rest, open) == Some((x, rest))
  {
    var s := open + x + rest;
    assert s[..|open|] == open;
    assert s[|open|..] == x + rest;
    TakeUntilPrefix(x, rest, '<');
    assert (x + rest)[|x|..] == rest;
  }

  // ---------------------------------------------------------------------
  // Parameter lists, for any tags

  /** The text a loop of `param_list += part` builds from `""`. */
  function Concat(parts: seq<string>): string
    decreases |parts|
  {
    if parts == [] then "" else parts[0] + Concat(parts[1..])
  }

  lemma {:induction false} ConcatSnoc(parts: seq<string>, p: string)
    ensures Concat(parts + [p]) == Concat(parts) + p
    decreases |parts|
  {
    if parts == [] {
      assert [p][1..] == [];
    } else {
      assert (parts + [p])[1..] == parts[1..] + [p];
      ConcatSnoc(parts[1..], p);
    }
  }

  /** A tag: non-empty and starting with `<`. */
  predicate IsTag(t: string) {
    t != [] && t[0] == '<'
  }

  /** One element `open + x + close` per text `x`. */
  function Wrapped(xs: seq<string>, open: string, close: string): (parts: seq<string>)
    ensures |parts| == |xs|
    ensures forall i :: 0 <= i < |xs| ==> parts[i] == open + xs[i] + close
  {
    seq(|xs|, i requires 0 <= i < |xs| => open + xs[i] + close)
  }

  lemma WrappedCons(xs: seq<string>, open: string, close: string)
    requires xs != []
    ensures Concat(Wrapped(xs, open, close)) == open + xs[0] + close + Concat(Wrapped(xs[1..], open, close))
  {
    assert Wrapped(xs, open, close)[1..] == Wrapped(xs[1..], open, close);
  }

  lemma WrappedSnoc(xs: seq<string>, x: string, open: string, close: string)
    ensures Concat(Wrapped(xs + [x], open, close)) == Concat(Wrapped(xs, open, close)) + (open + x + close)
  {
    assert Wrapped(xs + [x], open, close) == Wrapped(xs, open, close) + [open + x + close];
    ConcatSnoc(Wrapped(xs, open, close), open + x + close);
  }

  /** Reads a list of `open + x + close` elements back into the texts `x`. */
  function ParseWrapped(s: string, open: string, close: string): Option<seq<string>>
    decreases |s|
  {
    if s == "" then Some([])
    else
      match Cut(s, open)
      case None => None
      case Some((x, r)) =>
        if StartsWith(r, close) && |close| > 0 then
          match ParseWrapped(r[|close|..], open, close)
          case None => None
          case Some(rest) => Some([x] + rest)
        else None
  }

  /** One element with no `<` in its text is read back in front of what follows it. */
  lemma WrappedItemParse(x: string, tail: string, rest: seq<string>, open: string, close: string)
    requires '<' !in x && IsTag(close)
    requires ParseWrapped(tail, open, close) == Some(rest)
    ensures ParseWrapped(open + x + close + tail, open, close) == Some([x] + rest)
  {
    var r := close + tail;
    assert open + x + close + tail == open + x + r;
    CutItem(open, x, r);
    assert r[..|close|] == close;
    assert r[|close|..] == tail;
  }

  /** Texts with no `<` read back from their element list, one per element, in order. */
  lemma {:induction false} WrappedRoundTrip(xs: seq<string>, open: string, close: string)
    requires IsTag(close)
    requires forall i :: 0 <= i < |xs| ==> '<' !in xs[i]
    ensures ParseWrapped(Concat(Wrapped(xs, open, close)), open, close) == Some(xs)
    decreases |xs|
  {
    if xs != [] {
      var tail := xs[1..];
      assert forall i :: 0 <= i < |tail| ==> tail[i] == xs[i + 1];
      WrappedRoundTrip(tail, open, close);
      WrappedCons(xs, open, close);
      WrappedItemParse(xs[0], Concat(Wrapped(tail, open, close)), tail, open, close);
      assert [xs[0]] + tail == xs;
    }
  }

  /** One element `open + name + mid + value + close` per pair. */
  function Paired(items: seq<(string, string)>, open: string, mid: string, close: string): (parts: seq<string>)
    ensures |parts| == |items|
    ensures forall i :: 0 <= i < |items| ==> parts[i] == open + items[i].0 + mid + items[i].1 + close
  {
    seq(|items|, i requires 0 <= i < |items| => open + items[i].0 + mid + items[i].1 + close)
  }

  lemma PairedCons(items: seq<(string, string)>, open: string, mid: string, close: string)
    requires items != []
    ensures Concat(Paired(items, open, mid, close))
              == open + items[0].0 + mid + items[0].1 + close + Concat(Paired(items[1..], open, mid, close))
  {
    assert Paired(items, open, mid, close)[1..] == Paired(items[1..], open, mid, close);
  }

  lemma PairedSnoc(items: seq<(string, string)>, item: (string, string), open: string, mid: string, close: string)
    ensures Concat(Paired(items + [item], open, mid, close))
              == Concat(Paired(items, open, mid, close)) + (open + item.0 + mid + item.1 + close)
  {
    var last := open + item.0 + mid + item.1 + close;
    assert Paired(items + [item], open, mid, close) == Paired(items, open, mid, close) + [last];
    ConcatSnoc(Paired(items, open, mid, close), last);
  }

  /** Reads a list of `open + name + mid + value + close` elements back into the pairs. */
  function ParsePaired(s: string, open: string, mid: string, close: string): Option<seq<(string, string)>>
    decreases |s|
  {
    if s == "" then Some([])
    else
      match Cut(s, open)
      case None => None
      case Some((name, r1)) =>
        match Cut(r1, mid)
        case None => None
        case Some((value, r2)) =>
          if StartsWith(r2, close) && |close| > 0 then
            match ParsePaired(r2[|close|..], open, mid, close)
            case None => None
            case Some(rest) => Some([(name, value)] + rest)
          else None
  }

  /** One unfolding of `ParsePaired` once both cuts and the closing tag are known. */
  lemma PairedUnfold(s: string, open: string, mid: string, close: string,
                     name: string, value: string, r1: string, r2: string, rest: seq<(string, string)>)
    requires s != "" && IsTag(close)
    requires Cut(s, open) == Some((name, r1)) && Cut(r1, mid) == Some((value, r2))
    requires StartsWith(r2, close) && ParsePaired(r2[|close|..], open, mid, close) == Some(rest)
    ensures ParsePaired(s, open, mid, close) == Some([(name, value)] + rest)
  {
  }

  /** One element whose name and value have no `<` is read back in front of what follows it. */
  lemma PairedItemParse(name: string, value: string, tail: string, rest: seq<(string, string)>,
                        open: string, mid: string, close: string)
    requires '<' !in name && '<' !in value && IsTag(mid) && IsTag(close)
    requires ParsePaired(tail, open, mid, close) == Some(rest)
    ensures ParsePaired(open + name + mid + value + close + tail, open, mid, close) == Some([(name, value)] + rest)
  {
    var r2 := close + tail;
    var r1 := mid + value + r2;
    var s := open + name + r1;
    assert open + name + mid + value + close + tail == s;
    CutItem(open, name, r1);
    CutItem(mid, value, r2);
    assert r2[..|close|] == close;
    assert r2[|close|..] == tail;
    PairedUnfold(s, open, mid, close, name, value, r1, r2, rest);
  }

  /** Pairs with no `<` read back from their element list, one per element, in order. */
  lemma {:induction false} PairedRoundTrip(items: seq<(string, string)>, open: string, mid: string, close: string)
    requires IsTag(mid) && IsTag(close)
    requires forall i :: 0 <= i < |items| ==> '<' !in items[i].0 && '<' !in items[i].1
    ensures ParsePaired(Concat(Paired(items, open, mid, close)), open, mid, close) == Some(items)
    decreases |items|
  {
    if items != [] {
      var tail := items[1..];
      assert forall i :: 0 <= i < |tail| ==> tail[i] == items[i + 1];
      PairedRoundTrip(tail, open, mid, close);
      PairedCons(items, open, mid, close);
      PairedItemParse(items[0].0, items[0].1, Concat(Paired(tail, open, mid, close)), tail, open, mid, close);
      assert [(items[0].0, items[0].1)] + tail == items;
    }
  }

  // ---------------------------------------------------------------------
  // GetParameterValues

  const NameOpen: string := "<string>"
  const NameClose: string := "</string>"

  /** One entry of `param_list`. */
  function StringItem(name: string): string {
    NameOpen + name + NameClose
  }

  /** `param_list` after the loop over `names`. */
  function StringList(names: seq<string>): string {
    Concat(Wrapped(names, NameOpen, NameClose))
  }

  /** Reads a `param_list` of `<string>` elements back into the names. */
  function ParseStringList(s: string): Option<seq<string>> {
    ParseWrapped(s, NameOpen, NameClose)
  }

  /** A name list with no `<` in any name reads back from its `param_list`: one element per name, in order. */
  lemma StringListRoundTrip(names: seq<string>)
    requires forall i :: 0 <= i < |names| ==> '<' !in names[i]
    ensures ParseStringList(StringList(names)) == Some(names)
  {
    assert NameClose[0] == '<';
    WrappedRoundTrip(names, NameOpen, NameClose);
  }

  /** The text between the `arrayType` count and `param_list`, in both request bodies. */
  const CountClose: string := "]\">\n" + "                "

  const GetHead: string :=
    "<cwmp:GetParameterValues>\n"
    + "            <ParameterNames soap:arrayType=\"xsd:string["
  const GetTail: string :=
    "\n"
    + "            </ParameterNames>\n"
    + "        </cwmp:GetParameterValues>"

  /** The GetParameterValues body for `count` names with the list `paramList`. */
  function GetBody(count: nat, paramList: string): string {
    GetHead + Decimal(count) + CountClose + paramList + GetTail
  }

  /** `body` of `create_get_parameter_values_request`. */
  function GetParameterValuesBody(names: seq<string>): string {
    GetBody(|names|, StringList(names))
  }

  /** `create_get_parameter_values_request(parameter_names, session_id)` */
  method CreateGetParameterValuesRequest(names: seq<string>, sessionId: string) returns (request: string)
    ensures request == SoapEnvelope(GetParameterValuesBody(names), Some(sessionId))
  {
    var paramList := "";
    for i := 0 to |names|
      invariant paramList == StringList(names[..i])
    {
      WrappedSnoc(names[..i], names[i], NameOpen, NameClose);
      assert names[..i + 1] == names[..i] + [names[i]];
      paramList := paramList + StringItem(names[i]);
    }
    assert names[..|names|] == names;
    request := SoapEnvelope(GetBody(|names|, paramList), Some(sessionId));
  }

  // ---------------------------------------------------------------------
  // SetParameterValues

  const StructOpen: string := "\n            <ParameterValueStruct>\n                <Name>"
  const StructMiddle: string := "</Name>\n                <Value xsi:type=" + "\"xsd:string\">"
  const StructClose: string := "</Value>\n            </ParameterValueStruct>"

  /** One entry of `param_list`. */
  function StructItem(name: string, value: string): string {
    StructOpen + name + StructMiddle + value + StructClose
  }

  /** `param_list` after the loop over `parameters.items()`, in that order. */
  function StructList(items: seq<(string, string)>): string {
    Concat(Paired(items, StructOpen, StructMiddle, StructClose))
  }

  /** Reads a `param_list` of `ParameterValueStruct` elements back into name/value pairs. */
  function ParseStructList(s: string): Option<seq<(string, string)>> {
    ParsePaired(s, StructOpen, StructMiddle, StructClose)
  }

  /** Parameters whose names and values have no `<` read back from their `param_list`, in order. */
  lemma StructListRoundTrip(items: seq<(string, string)>)
    requires forall i :: 0 <= i < |items| ==> '<' !in items[i].0 && '<' !in items[i].1
    ensures ParseStructList(StructList(items)) == Some(items)
  {
    assert StructMiddle[0] == '<' && StructClose[0] == '<';
    PairedRoundTrip(items, StructOpen, StructMiddle, StructClose);
  }

  const SetHead: string :=
    "<cwmp:SetParameterValues>\n"
    + "            <ParameterList soap:arrayType=\"cwmp:ParameterValueStruct["
  const SetTail: string :=
    "\n"
    + "            </ParameterList>\n"
    + "            <ParameterKey></ParameterKey>\n"
    + "        </cwmp:SetParameterValues>"

  /** The SetParameterValues body for `count` parameters with the list `paramList`. */
  function SetBody(count: nat, paramList: string): string {
    SetHead + Decimal(count) + CountClose + paramList + SetTail
  }

  /** `body` of `create_set_parameter_values_request`. */
  function SetParameterValuesBody(items: seq<(string, string)>): string {
    SetBody(|items|, StructList(items))
  }

  /** `create_set_parameter_values_request(parameters, session_id)`, the dictionary given as its items in order. */
  method CreateSetParameterValuesRequest(items: seq<(string, string)>, sessionId: string) returns (request: string)
    ensures request == SoapEnvelope(SetParameterValuesBody(items), Some(sessionId))
  {
    var paramList := "";
    for i := 0 to |items|
      invariant paramList == StructList(items[..i])
    {
      PairedSnoc(items[..i], items[i], StructOpen, StructMiddle, StructClose);
      assert items[..i + 1] == items[..i] + [items[i]];
      var (name, value) := items[i];
      paramList := paramList + StructItem(name, value);
    }
    assert items[..|items|] == items;
    request := SoapEnvelope(SetBody(|items|, paramList), Some(sessionId));
  }

  /** The `arrayType` count written into a request reads back as the number of entries. */
  lemma ArrayTypeCount(n: nat)
    ensures DigitsValue(Decimal(n)) == n
  {
    DecimalValue(n);
  }

  // ---------------------------------------------------------------------
  // Reading a request body back

  /**
   * Text framed as `head + d + mid + x + tail`, with `d` free of `mid`'s
   * first character, determines `d` and `x`.
   */
  lemma FramedInjective(head: string, d1: string, x1: string, d2: string, x2: string, mid: string, tail: string)
    requires mid != [] && mid[0] !in d1 && mid[0] !in d2
    requires head + d1 + mid + x1 + tail == head + d2 + mid + x2 + tail
    ensures d1 == d2 && x1 == x2
  {
    var a := head + d1 + mid + x1 + tail;
    var b := head + d2 + mid + x2 + tail;
    assert a[|head| + |d1|] == mid[0];
    assert b[|head| + |d2|] == mid[0];
    assert forall k :: |head| <= k < |head| + |d1| ==> a[k] == d1[k - |head|];
    assert forall k :: |head| <= k < |head| + |d2| ==> b[k] == d2[k - |head|];
    assert |d1| == |d2|;
    assert d1 == a[|head|..|head| + |d1|];
    assert d2 == b[|head|..|head| + |d2|];
    assert x1 == a[|head| + |d1| + |mid|..|a| - |tail|];
    assert x2 == b[|head| + |d2| + |mid|..|b| - |tail|];
  }

  /** A decimal count holds no `]`, so it ends where `CountClose` starts. */
  lemma DecimalNoBracket(n: nat)
    ensures CountClose != [] && CountClose[0] !in Decimal(n)
  {
    var d := Decimal(n);
    assert forall i :: 0 <= i < |d| ==> IsDigit(d[i]);
  }

  /** A GetParameterValues body determines the count and the `param_list` it was built from. */
  lemma GetBodyInjective(c1: nat, l1: string, c2: nat, l2: string)
    requires GetBody(c1, l1) == GetBody(c2, l2)
    ensures c1 == c2 && l1 == l2
  {
    DecimalNoBracket(c1);
    DecimalNoBracket(c2);
    FramedInjective(GetHead, Decimal(c1), l1, Decimal(c2), l2, CountClose, GetTail);
    DecimalValue(c1);
    DecimalValue(c2);
  }

  /** A SetParameterValues body determines the count and the `param_list` it was built from. */
  lemma SetBodyInjective(c1: nat, l1: string, c2: nat, l2: string)
    requires SetBody(c1, l1) == SetBody(c2, l2)
    ensures c1 == c2 && l1 == l2
  {
    DecimalNoBracket(c1);
    DecimalNoBracket(c2);
    FramedInjective(SetHead, Decimal(c1), l1, Decimal(c2), l2, CountClose, SetTail);
    DecimalValue(c1);
    DecimalValue(c2);
  }

  /**
   * Two GetParameterValues requests of one session that are the same text
   * ask for the same names, in the same order (names without `<`).
   */
  lemma GetRequestInjective(n1: seq<string>, n2: seq<string>, sessionId: string)
    requires forall i :: 0 <= i < |n1| ==> '<' !in n1[i]
    requires forall i :: 0 <= i < |n2| ==> '<' !in n2[i]
    requires SoapEnvelope(GetParameterValuesBody(n1), Some(sessionId))
          == SoapEnvelope(GetParameterValuesBody(n2), Some(sessionId))
    ensures n1 == n2
  {
    EnvelopeInjective(GetParameterValuesBody(n1), GetParameterValuesBody(n2), Some(sessionId));
    GetBodyInjective(|n1|, StringList(n1), |n2|, StringList(n2));
    StringListRoundTrip(n1);
    StringListRoundTrip(n2);
  }

  /**
   * Two SetParameterValues requests of one session that are the same text
   * set the same name/value pairs, in the same order (no `<` in them).
   */
  lemma SetRequestInjective(i1: seq<(string, string)>, i2: seq<(string, string)>, sessionId: string)
    requires forall i :: 0 <= i < |i1| ==> '<' !in i1[i].0 && '<' !in i1[i].1
    requires forall i :: 0 <= i < |i2| ==> '<' !in i2[i].0 && '<' !in i2[i].1
    requires SoapEnvelope(SetParameterValuesBody(i1), Some(sessionId))
          == SoapEnvelope(SetParameterValuesBody(i2), Some(sessionId))
    ensures i1 == i2
  {
    EnvelopeInjective(SetParameterValuesBody(i1), SetParameterValuesBody(i2), Some(sessionId));
    SetBodyInjective(|i1|, StructList(i1), |i2|, StructList(i2));
    StructListRoundTrip(i1);
    StructListRoundTrip(i2);
  }

  // ---------------------------------------------------------------------
  // Host of a connection-request URL

  /** `url.split('://')[1].split(':')[0] if '://' in url else ''` */
  function HostOf(url: string): (host: string)
    ensures !Contains(url, "://") ==> host == ""
    ensures ':' !in host
  {
    if Contains(url, "://") then
      SplitHead(url, "://");
      SplitCharHead(Split(url, "://")[1], ':');
      Split(Split(url, "://")[1], ":")[0]
    else ""
  }

  /** The host as meant: after the first `://`, up to the next `:` (or the end). */
  function HostAfterScheme(url: string): string
    requires Contains(url, "://")
  {
    TakeUntil(url[Find(url, "://").value + 3..], ':')
  }

  /** Cutting at the first `://` does not move the first `:`, which is never later. */
  lemma PieceHost(rest: string)
    ensures TakeUntil(Split(rest, "://")[0], ':') == TakeUntil(rest, ':')
  {
    SplitHead(rest, "://");
    match Find(rest, "://")
    case None =>
    case Some(j) =>
      assert OccursAt(rest, "://", j);
      assert rest[j] == rest[j..j + 3][0] == ':';
      TakeUntilCut(rest, ':', j);
  }

  /** The double split yields exactly the text between the first `://` and the following `:`. */
  lemma HostOfIsAfterScheme(url: string)
    requires Contains(url, "://")
    ensures HostOf(url) == HostAfterScheme(url)
    ensures ':' !in HostOf(url)
  {
    var rest := url[Find(url, "://").value + 3..];
    SplitHead(url, "://");
    var piece := Split(url, "://")[1];
    assert piece == Split(rest, "://")[0];
    SplitCharHead(piece, ':');
    PieceHost(rest);
  }
}
