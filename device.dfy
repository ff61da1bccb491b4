/**
 * device.py: the device identity. A stored identifier wins; otherwise the
 * primary MAC address reported by the local add-on API is normalised,
 * left-padded with zeros to 32 characters and stored.
 */
module Device {
  import opened PyJson
  import opened Host

  /** The add-on API's answer to `GET /addons/system/mac`: the HTTP status
      and the decoded body (Raise when `response.json()` fails). */
  datatype MacReply = MacReply(status: int, body: Outcome<Json>)

  /** `get_primary_interface_mac()`. `reply` is None when the request
      itself raised. The value is the body's "mac" entry when it is truthy
      and has length 17, and "" otherwise; every failure gives "". */
  function PrimaryMac(reply: Option<MacReply>): (r: Json)
    ensures r == JStr("") || (Truthy(r) && Len(r) == Ok(17))
    ensures r != JStr("") ==> reply.Some? && reply.value.status == 200 && reply.value.body.Ok? &&
                              Get(reply.value.body.value, "mac", JStr("")) == Ok(r)
  {
    if reply.None? || reply.value.status != 200 || reply.value.body.Raise? then JStr("")
    else match Get(reply.value.body.value, "mac", JStr(""))
      case Raise(_) => JStr("")
      case Ok(mac) =>
        if Truthy(mac) && Len(mac) == Ok(17) then mac else JStr("")
  }

  /** A well-formed reply is accepted exactly when its MAC text has 17
      characters. */
  lemma MacLengthCheck(s: string)
    ensures PrimaryMac(Some(MacReply(200, Ok(JObj([("mac", JStr(s))]))))) == (if |s| == 17 then JStr(s) else JStr(""))
    ensures PrimaryMac(Some(MacReply(404, Ok(JObj([("mac", JStr(s))]))))) == JStr("")
  {
  }

  /** `s.replace(':', '')`. */
  function RemoveColons(s: string): (r: string)
    ensures |r| <= |s|
    ensures forall k :: 0 <= k < |r| ==> r[k] != ':' && r[k] in s
    ensures (forall k :: 0 <= k < |s| ==> s[k] != ':') ==> r == s
  {
    if s == [] then []
    else if s[0] == ':' then RemoveColons(s[1..])
    else [s[0]] + RemoveColons(s[1..])
  }

  /** `mac.replace(':', '').lower()`. */
  function Normalize(mac: string): (r: string)
    ensures forall k :: 0 <= k < |r| ==> r[k] != ':' && !('A' <= r[k] <= 'Z')
  {
    Lower(RemoveColons(mac))
  }

  function Concat(gs: seq<string>): string
  {
    if gs == [] then "" else gs[0] + Concat(gs[1..])
  }

  /** A MAC written as colon-separated groups normalises to its groups
      run together and lower-cased. */
  lemma {:induction false} NormalizeGroups(gs: seq<string>)
    requires forall i, k :: 0 <= i < |gs| && 0 <= k < |gs[i]| ==> gs[i][k] != ':'
    ensures Normalize(Join(":", gs)) == Lower(Concat(gs))
  {
    RemoveColonsJoin(gs);
  }

  lemma {:induction false} RemoveColonsJoin(gs: seq<string>)
    requires forall i, k :: 0 <= i < |gs| && 0 <= k < |gs[i]| ==> gs[i][k] != ':'
    ensures RemoveColons(Join(":", gs)) == Concat(gs)
  {
    if |gs| == 1 {
      assert RemoveColons(gs[0]) == gs[0];
      assert Concat(gs) == gs[0] + Concat([]);
    } else if |gs| > 1 {
      RemoveColonsJoin(gs[1..]);
      assert RemoveColons(gs[0]) == gs[0];
      RemoveColonsAppend(gs[0] + ":", Join(":", gs[1..]));
      RemoveColonsAppend(gs[0], ":");
      assert RemoveColons(":") == "" by {
        assert ":"[1..] == "";
      }
    }
  }

  lemma {:induction false} RemoveColonsAppend(s: string, t: string)
    ensures RemoveColons(s + t) == RemoveColons(s) + RemoveColons(t)
  {
    if s != [] {
      assert (s + t)[1..] == s[1..] + t;
      RemoveColonsAppend(s[1..], t);
    } else {
      assert s + t == t;
    }
  }

  /** `'0' * (32 - len(mac)) + mac` when the padding is positive, else mac. */
  function PadId(mac: string): (r: string)
    ensures |r| == if |mac| >= 32 then |mac| else 32
    ensures r[|r| - |mac|..] == mac
    ensures forall k :: 0 <= k < |r| - |mac| ==> r[k] == '0'
  {
    var padding := 32 - |mac|;
    if padding > 0 then Repeat('0', padding) + mac else mac
  }

  /** `get_device_id()` on the files: the identifier (or the RuntimeError
      raised when no MAC is available) and the new file map. `writeOk` says
      whether storing the identifier succeeds; `AttributeError` is what
      `replace` raises on a MAC entry that is not a string. */
  function GetDeviceIdStep(files: map<string, File>, reply: Option<MacReply>, writeOk: bool): (r: (Outcome<string>, map<string, File>))
  {
    var stored := ReadText(files, DeviceIdFile);
    if stored.Ok? && Lower(Strip(stored.value)) != "" then (Ok(Lower(Strip(stored.value))), files)
    else match PrimaryMac(reply)
      case JStr(s) =>
        var mac := Normalize(s);
        if mac == "" then (Raise(RuntimeError), files)
        else (Ok(PadId(mac)), if writeOk then files[DeviceIdFile := Text(PadId(mac))] else files)
      case _ => (Raise(AttributeError), files)
  }

  method GetDeviceId(app: App, reply: Option<MacReply>, writeOk: bool) returns (r: Outcome<string>)
    modifies app
    ensures (r, app.files) == GetDeviceIdStep(old(app.files), reply, writeOk)
    ensures app.procs == old(app.procs) && app.handle == old(app.handle)
  {
    var stored := ReadText(app.files, DeviceIdFile);
    if stored.Ok? {
      var savedId := Lower(Strip(stored.value));
      if savedId != "" {
        return Ok(savedId);
      }
    }
    var raw := PrimaryMac(reply);
    if !raw.JStr? {
      return Raise(AttributeError);
    }
    var mac := Normalize(raw.s);
    if mac == "" {
      return Raise(RuntimeError);
    }
    var deviceId := PadId(mac);
    if writeOk {
      app.WriteFile(DeviceIdFile, Text(deviceId));
    }
    r := Ok(deviceId);
  }

  /** A stored non-empty identifier is returned, lower-cased, whatever the
      API says, and nothing is written. */
  lemma StoredIdWins(files: map<string, File>, t: string, reply: Option<MacReply>, writeOk: bool)
    requires DeviceIdFile in files && files[DeviceIdFile] == Text(t) && Lower(Strip(t)) != ""
    ensures GetDeviceIdStep(files, reply, writeOk) == (Ok(Lower(Strip(t))), files)
  {
  }

  /** Without a stored identifier and without a MAC the call raises and
      stores nothing. */
  lemma NoMacNoId(files: map<string, File>, writeOk: bool)
    requires DeviceIdFile !in files
    ensures GetDeviceIdStep(files, None, writeOk) == (Raise(RuntimeError), files)
  {
    assert Normalize("") == "";
  }

  /** A generated identifier has length max(32, len(mac)), ends with the
      normalised MAC, is stored when the write succeeds, and is returned
      whether or not it does. */
  lemma GeneratedId(files: map<string, File>, reply: Option<MacReply>, writeOk: bool)
    requires DeviceIdFile !in files
    requires PrimaryMac(reply).JStr? && Normalize(PrimaryMac(reply).s) != ""
    ensures var mac := Normalize(PrimaryMac(reply).s);
      var r := GetDeviceIdStep(files, reply, writeOk);
      && r.0.Ok?
      && |r.0.value| == (if |mac| >= 32 then |mac| else 32)
      && r.0.value[|r.0.value| - |mac|..] == mac
      && (writeOk ==> r.1 == files[DeviceIdFile := Text(r.0.value)])
      && (!writeOk ==> r.1 == files)
  {
  }

  /** An accepted 17-character MAC with no white space gives a 32-character
      identifier that the next call reads back unchanged, without asking
      the API. */
  lemma {:induction false} GeneratedIdIsStable(files: map<string, File>, reply: Option<MacReply>, later: Option<MacReply>, writeOk: bool)
    requires DeviceIdFile !in files
    requires PrimaryMac(reply).JStr? && Normalize(PrimaryMac(reply).s) != ""
    requires forall k :: 0 <= k < |PrimaryMac(reply).s| ==> !IsSpace(PrimaryMac(reply).s[k])
    ensures var r := GetDeviceIdStep(files, reply, true);
      |r.0.value| == 32 && GetDeviceIdStep(r.1, later, writeOk) == (r.0, r.1)
  {
    var s := PrimaryMac(reply).s;
    var mac := Normalize(s);
    var id := PadId(mac);
    assert |s| == 17 by {
      assert Len(PrimaryMac(reply)) == Ok(17);
    }
    assert |mac| <= 17;
    forall k | 0 <= k < |mac|
      ensures !IsSpace(mac[k]) && LowerChar(mac[k]) == mac[k]
    {
      var c := RemoveColons(s)[k];
      assert c in s;
      assert mac[k] == LowerChar(c);
    }
    assert id[|id| - 1] == mac[|mac| - 1] by {
      assert id[|id| - |mac|..][|mac| - 1] == mac[|mac| - 1];
    }
    assert id[0] == '0';
    StripNoEdgeSpace(id);
    assert Lower(id) == id by {
      forall k | 0 <= k < |id|
        ensures LowerChar(id[k]) == id[k]
      {
        if k >= |id| - |mac| {
          assert id[|id| - |mac|..][k - (|id| - |mac|)] == id[k];
        }
      }
    }
  }
}
