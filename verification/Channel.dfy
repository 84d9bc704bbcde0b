/** The client of the signed update channel (`update_channel.py`): trust root, envelope, announce, poll
    state and verdict.

    JSON text, SHA-256 and Ed25519 come in as parameters: a parser and a printer, a key identifier and
    a signature check about which nothing is assumed unless a lemma says so. */
module Channel {
  import opened Prelude
  import opened Utf8
  import Base64

  /** The code points of a string that holds a surrogate: JSON can spell one alone, UTF-8 cannot encode it. */
  type Unpaired = p: seq<nat> | exists i :: 0 <= i < |p| && 0xD800 <= p[i] < 0xE000
    witness (var p: seq<nat> := [0xD800]; assert p[0] == 0xD800; p)

  /** A Python string. */
  datatype Text = Plain(s: string) | Lone(points: Unpaired)

  /** `odd`: some field NAME holds a lone surrogate. Such a field is never looked up. */
  datatype Json =
    | Null | Bool(b: bool) | Num(n: int) | Str(t: Text) | Arr(items: seq<Json>)
    | Obj(fields: map<string, Json>, odd: bool)

  /** No string of the document, name or value, holds a lone surrogate. */
  predicate Encodable(j: Json) {
    match j
    case Str(t) => t.Plain?
    case Arr(items) => forall x :: x in items ==> Encodable(x)
    case Obj(fields, odd) => !odd && forall k :: k in fields ==> Encodable(fields[k])
    case _ => true
  }

  function Get(j: Json, field: string): Option<Json> {
    if j.Obj? && field in j.fields then Some(j.fields[field]) else None
  }

  datatype Outside = Outside(
    parse: string -> Option<Json>,
    print_: Json -> string,
    keyId: seq<Byte> -> string,
    verify: (seq<Byte>, seq<Byte>, seq<Byte>) -> bool)  // public key, signature, message

  const ENVELOPE_SCHEMA := "forgemaster-update-channel/1"
  const ANNOUNCE_SCHEMA := "forgemaster-edition-announce/1"
  const LINEAGE_MAX: nat := 50
  const MAX_BODY: nat := 256 * 1024

  /** `readable`: no unknown identifier, quoted in the reason, holds a lone surrogate. */
  datatype Fault = Malformed | UnknownKey(readable: bool) | BadSignature | Unreachable | Internal

  /** What is signed is the schema of the envelope, then the payload. */
  function SigningMessage(payload: seq<Byte>): seq<Byte> {
    Encode(ENVELOPE_SCHEMA + "\n") + payload
  }

  /** `raw.decode("utf-8")`: strict. */
  function StrictText(bs: seq<Byte>): Option<string> {
    if Encode(Decode(bs)) == bs then Some(Decode(bs)) else None
  }

  lemma StrictTextOfEncoded(s: string)
    ensures StrictText(Encode(s)) == Some(s)
  {
    DecodeEncoded(s, []);
    assert Encode(s) + [] == Encode(s) && s + [] == s;
  }

  function Loads(bs: seq<Byte>, o: Outside): Option<Json> {
    match StrictText(bs)
    case None => None
    case Some(t) => o.parse(t)
  }

  function B64Field(j: Option<Json>): Option<seq<Byte>> {
    if j.Some? && j.value.Str? && j.value.t.Plain? then Base64.Bytes(j.value.t.s) else None
  }

  // --- the trust root ---------------------------------------------------------------------------------

  datatype KeysFile = Absent | Locked | Present(bytes: seq<Byte>)
  datatype Key = Key(id: string, public: seq<Byte>)

  /** `Escapes`: the file is not UTF-8, and `read_text` raises what nobody there catches. */
  datatype RootFault = BadRoot | Escapes

  function KeyOf(entry: Json, o: Outside): Option<Key> {
    match B64Field(Get(entry, "public"))
    case None => None
    case Some(pub) =>
      if Get(entry, "key_id") == Some(Str(Plain(o.keyId(pub)))) then Some(Key(o.keyId(pub), pub)) else None
  }

  predicate Names(keys: seq<Key>, id: string) {
    exists k :: k in keys && k.id == id
  }

  function Entries(items: seq<Json>, kept: seq<Key>, o: Outside): Result<seq<Key>, RootFault> {
    if items == [] then Ok(kept)
    else match KeyOf(items[0], o)
         case None => Err(BadRoot)
         case Some(k) => if Names(kept, k.id) then Err(BadRoot) else Entries(items[1..], kept + [k], o)
  }

  function DeclaredKeys(bytes: seq<Byte>, o: Outside): Result<seq<Json>, RootFault> {
    match StrictText(bytes)
    case None => Err(Escapes)
    case Some(t) =>
      match o.parse(t)
      case None => Err(BadRoot)
      case Some(j) =>
        match Get(j, "keys")
        case Some(Arr(items)) => if items == [] then Err(BadRoot) else Ok(items)
        case _ => Err(BadRoot)
  }

  function Root(file: KeysFile, o: Outside): Result<seq<Key>, RootFault> {
    match file
    case Absent => Ok([])
    case Locked => Err(BadRoot)
    case Present(bytes) =>
      match DeclaredKeys(bytes, o)
      case Err(fault) => Err(fault)
      case Ok(items) => Entries(items, [], o)
  }

  /** `trust_root`. */
  method TrustRoot(file: KeysFile, o: Outside) returns (keys: Result<seq<Key>, RootFault>)
    ensures keys == Root(file, o)
  {
    if file.Absent? {
      return Ok([]);
    }
    if file.Locked? {
      return Err(BadRoot);
    }
    var declared := DeclaredKeys(file.bytes, o);
    if declared.Err? {
      return Err(declared.error);
    }
    var items := declared.value;
    var kept: seq<Key> := [];
    for i := 0 to |items|
      invariant Entries(items, [], o) == Entries(items[i..], kept, o)
    {
      assert items[i..][0] == items[i] && items[i..][1..] == items[i+1..];
      var key := KeyOf(items[i], o);
      if key.None? || Names(kept, key.value.id) {
        return Err(BadRoot);
      }
      kept := kept + [key.value];
    }
    keys := Ok(kept);
  }

  /** Every identifier is derived from its own key, and designates only that one. */
  ghost predicate Derived(keys: seq<Key>, o: Outside) {
    (forall i :: 0 <= i < |keys| ==> keys[i].id == o.keyId(keys[i].public))
    && (forall i, j :: 0 <= i < j < |keys| ==> keys[i].id != keys[j].id)
  }

  lemma {:induction false} EntriesAreDerived(items: seq<Json>, kept: seq<Key>, o: Outside)
    requires Derived(kept, o)
    ensures Entries(items, kept, o).Ok? ==> Derived(Entries(items, kept, o).value, o)
    ensures Entries(items, kept, o).Ok? ==> |Entries(items, kept, o).value| == |kept| + |items|
    decreases items
  {
    if items != [] && KeyOf(items[0], o).Some? && !Names(kept, KeyOf(items[0], o).value.id) {
      var k := KeyOf(items[0], o).value;
      forall i | 0 <= i < |kept| ensures kept[i].id != k.id {
        assert kept[i] in kept;
      }
      EntriesAreDerived(items[1..], kept + [k], o);
    }
  }

  /** A trust root that is accepted is complete and honest: none of its declared keys was dropped, each
      identifier is re-derived from its key, and no two keys share one. */
  lemma RootIsDerived(file: KeysFile, o: Outside)
    ensures Root(file, o).Ok? ==> Derived(Root(file, o).value, o)
    ensures file.Present? && Root(file, o).Ok? ==> |Root(file, o).value| == |DeclaredKeys(file.bytes, o).value| > 0
  {
    if file.Present? && DeclaredKeys(file.bytes, o).Ok? {
      EntriesAreDerived(DeclaredKeys(file.bytes, o).value, [], o);
    }
  }

  // --- the envelope -------------------------------------------------------------------------------------

  datatype Sig = Sig(keyId: Json, sig: seq<Byte>)
  datatype Envelope = Envelope(payload: seq<Byte>, sigs: seq<Sig>)

  function SigOf(j: Json): Option<Sig> {
    match Get(j, "key_id")
    case None => None
    case Some(id) =>
      match B64Field(Get(j, "sig"))
      case None => None
      case Some(sig) => Some(Sig(id, sig))
  }

  function SigsOf(items: seq<Json>): Option<seq<Sig>> {
    if items == [] then Some([])
    else match SigOf(items[0])
         case None => None
         case Some(s) =>
           match SigsOf(items[1..])
           case None => None
           case Some(rest) => Some([s] + rest)
  }

  /** `parse_envelope`: everything but the content of the payload. */
  function ParseEnvelope(raw: seq<Byte>, o: Outside): Result<Envelope, Fault> {
    match Loads(raw, o)
    case None => Err(Malformed)
    case Some(j) =>
      if Get(j, "schema") != Some(Str(Plain(ENVELOPE_SCHEMA))) then Err(Malformed)
      else
        match Get(j, "signatures")
        case Some(Arr(items)) =>
          if items == [] || SigsOf(items).None? || B64Field(Get(j, "payload")).None? then Err(Malformed)
          else Ok(Envelope(B64Field(Get(j, "payload")).value, SigsOf(items).value))
        case _ => Err(Malformed)
  }

  /** A list or an object cannot be looked up in a Python dictionary. */
  predicate Hashable(j: Json) {
    !j.Arr? && !j.Obj?
  }

  function PublicOf(keys: seq<Key>, id: Json): Option<seq<Byte>> {
    if keys == [] then None
    else if Str(Plain(keys[|keys| - 1].id)) == id then Some(keys[|keys| - 1].public)
    else PublicOf(keys[..|keys| - 1], id)
  }

  predicate Vouches(s: Sig, payload: seq<Byte>, keys: seq<Key>, o: Outside) {
    PublicOf(keys, s.keyId).Some? && o.verify(PublicOf(keys, s.keyId).value, s.sig, SigningMessage(payload))
  }

  /** How the scan ends when nothing vouches. A failed claim on a KNOWN key comes first; then the unknown
      identifiers are joined in a message, which raises on one that is not a string. */
  function Refusal(invalid: bool, unknown: seq<Json>): Fault {
    if invalid then BadSignature
    else if exists j :: j in unknown && !j.Str? then Internal
    else UnknownKey(forall j :: j in unknown ==> j.Str? && j.t.Plain?)
  }

  function Scan(sigs: seq<Sig>, payload: seq<Byte>, keys: seq<Key>, o: Outside, invalid: bool, unknown: seq<Json>)
    : Result<seq<Byte>, Fault>
  {
    if sigs == [] then Err(Refusal(invalid, unknown))
    else if !Hashable(sigs[0].keyId) then Err(Internal)
    else if Vouches(sigs[0], payload, keys, o) then Ok(payload)
    else if PublicOf(keys, sigs[0].keyId).Some? then Scan(sigs[1..], payload, keys, o, true, unknown)
    else Scan(sigs[1..], payload, keys, o, invalid, unknown + [sigs[0].keyId])
  }

  function Verified(env: Envelope, keys: seq<Key>, o: Outside): Result<seq<Byte>, Fault> {
    if keys == [] then Err(UnknownKey(true)) else Scan(env.sigs, env.payload, keys, o, false, [])
  }

  /** `verify_envelope`. */
  method VerifyEnvelope(env: Envelope, keys: seq<Key>, o: Outside) returns (payload: Result<seq<Byte>, Fault>)
    ensures payload == Verified(env, keys, o)
  {
    if keys == [] {
      return Err(UnknownKey(true));
    }
    var message := SigningMessage(env.payload);
    var invalid, unknown: seq<Json> := false, [];
    for i := 0 to |env.sigs|
      invariant Verified(env, keys, o) == Scan(env.sigs[i..], env.payload, keys, o, invalid, unknown)
    {
      var s := env.sigs[i];
      assert env.sigs[i..][0] == s && env.sigs[i..][1..] == env.sigs[i+1..];
      if !Hashable(s.keyId) {
        return Err(Internal);
      }
      var public := PublicOf(keys, s.keyId);
      if public.None? {
        unknown := unknown + [s.keyId];
        continue;
      }
      if o.verify(public.value, s.sig, message) {
        return Ok(env.payload);
      }
      invalid := true;
    }
    if invalid {
      return Err(BadSignature);
    }
    var readable := true;
    for i := 0 to |unknown|
      invariant forall k :: 0 <= k < i ==> unknown[k].Str?
      invariant readable <==> forall k :: 0 <= k < i ==> unknown[k].t.Plain?
    {
      if !unknown[i].Str? {
        return Err(Internal);
      }
      readable := readable && unknown[i].t.Plain?;
    }
    payload := Err(UnknownKey(readable));
  }

  /** Signature `i` vouches for the payload, and the scan gets to it. */
  ghost predicate Decides(sigs: seq<Sig>, i: nat, payload: seq<Byte>, keys: seq<Key>, o: Outside) {
    i < |sigs| && Vouches(sigs[i], payload, keys, o) && forall k :: 0 <= k <= i ==> Hashable(sigs[k].keyId)
  }

  lemma {:induction false} ScanAccepts(sigs: seq<Sig>, i: nat, payload: seq<Byte>, keys: seq<Key>, o: Outside,
                                       invalid: bool, unknown: seq<Json>)
    requires Decides(sigs, i, payload, keys, o)
    ensures Scan(sigs, payload, keys, o, invalid, unknown) == Ok(payload)
    decreases sigs
  {
    hide Vouches, PublicOf, Hashable;
    assert Hashable(sigs[0].keyId);
    if !Vouches(sigs[0], payload, keys, o) {
      assert sigs[1..][i - 1] == sigs[i];
      ScanAccepts(sigs[1..], i - 1, payload, keys, o, true, unknown);
      ScanAccepts(sigs[1..], i - 1, payload, keys, o, invalid, unknown + [sigs[0].keyId]);
    }
  }

  lemma {:induction false} ScanFinds(sigs: seq<Sig>, payload: seq<Byte>, keys: seq<Key>, o: Outside, invalid: bool,
                                     unknown: seq<Json>) returns (i: nat)
    requires Scan(sigs, payload, keys, o, invalid, unknown).Ok?
    ensures Decides(sigs, i, payload, keys, o) && Scan(sigs, payload, keys, o, invalid, unknown).value == payload
    decreases sigs
  {
    hide Vouches, PublicOf, Hashable;
    if Vouches(sigs[0], payload, keys, o) {
      i := 0;
    } else {
      var j;
      if PublicOf(keys, sigs[0].keyId).Some? {
        j := ScanFinds(sigs[1..], payload, keys, o, true, unknown);
      } else {
        j := ScanFinds(sigs[1..], payload, keys, o, invalid, unknown + [sigs[0].keyId]);
      }
      i := j + 1;
      assert sigs[1..][j] == sigs[i];
      forall k | 0 <= k <= i ensures Hashable(sigs[k].keyId) {
        if k > 0 {
          assert sigs[1..][k - 1] == sigs[k];
        }
      }
    }
  }

  /** VERIFY, exactly. The payload comes back if and only if one signature verifies under the very key
      it names, the scan getting to it; never another payload. */
  lemma VerifiedExactly(env: Envelope, keys: seq<Key>, o: Outside)
    ensures Verified(env, keys, o).Ok? <==> keys != [] && exists i: nat :: Decides(env.sigs, i, env.payload, keys, o)
    ensures Verified(env, keys, o).Ok? ==> Verified(env, keys, o).value == env.payload
    ensures keys == [] ==> Verified(env, keys, o) == Err(UnknownKey(true))
  {
    hide Decides, Scan;
    if keys != [] {
      if Scan(env.sigs, env.payload, keys, o, false, []).Ok? {
        var i := ScanFinds(env.sigs, env.payload, keys, o, false, []);
      }
      if i: nat :| Decides(env.sigs, i, env.payload, keys, o) {
        ScanAccepts(env.sigs, i, env.payload, keys, o, false, []);
      }
    }
  }

  /** Nothing vouches, and every identifier can be looked up. */
  ghost predicate Silent(sigs: seq<Sig>, payload: seq<Byte>, keys: seq<Key>, o: Outside) {
    forall i :: 0 <= i < |sigs| ==> Hashable(sigs[i].keyId) && !Vouches(sigs[i], payload, keys, o)
  }

  /** The identifiers of no key of the root, in order. */
  function Strangers(sigs: seq<Sig>, keys: seq<Key>): seq<Json> {
    if sigs == [] then []
    else (if PublicOf(keys, sigs[0].keyId).None? then [sigs[0].keyId] else []) + Strangers(sigs[1..], keys)
  }

  predicate Claims(sigs: seq<Sig>, keys: seq<Key>) {
    exists i :: 0 <= i < |sigs| && PublicOf(keys, sigs[i].keyId).Some?
  }

  lemma {:induction false} StrangersAre(sigs: seq<Sig>, keys: seq<Key>, j: Json)
    ensures j in Strangers(sigs, keys) <==>
              exists i :: 0 <= i < |sigs| && sigs[i].keyId == j && PublicOf(keys, sigs[i].keyId).None?
  {
    hide PublicOf;
    if sigs != [] {
      StrangersAre(sigs[1..], keys, j);
      assert forall i :: 0 <= i < |sigs[1..]| ==> sigs[1..][i] == sigs[i + 1];
      if i :| 0 <= i < |sigs| && sigs[i].keyId == j && PublicOf(keys, sigs[i].keyId).None? {
        assert i == 0 || sigs[1..][i - 1] == sigs[i];
      }
    }
  }

  lemma {:induction false} SilentScan(sigs: seq<Sig>, payload: seq<Byte>, keys: seq<Key>, o: Outside, invalid: bool,
                                      unknown: seq<Json>)
    requires Silent(sigs, payload, keys, o)
    ensures Scan(sigs, payload, keys, o, invalid, unknown)
         == Err(Refusal(invalid || Claims(sigs, keys), unknown + Strangers(sigs, keys)))
    decreases sigs
  {
    hide Vouches, PublicOf, Hashable, Refusal;
    if sigs == [] {
      assert unknown + [] == unknown;
    } else {
      assert forall i :: 0 <= i < |sigs[1..]| ==> sigs[1..][i] == sigs[i + 1];
      if i :| 0 <= i < |sigs| && PublicOf(keys, sigs[i].keyId).Some? {
        assert i == 0 || sigs[1..][i - 1] == sigs[i];
      }
      if PublicOf(keys, sigs[0].keyId).Some? {
        SilentScan(sigs[1..], payload, keys, o, true, unknown);
        assert [] + Strangers(sigs[1..], keys) == Strangers(sigs[1..], keys);
      } else {
        var id := sigs[0].keyId;
        SilentScan(sigs[1..], payload, keys, o, invalid, unknown + [id]);
        assert (unknown + [id]) + Strangers(sigs[1..], keys) == unknown + ([id] + Strangers(sigs[1..], keys));
      }
    }
  }

  /** REFUSED, exactly. When nothing vouches, a failed claim on a known key outweighs everything; else one
      identifier that is not a string turns the refusal into an internal failure; else the key is
      unknown, and the reason can be written unless an identifier holds a lone surrogate. */
  lemma ScanRefuses(env: Envelope, keys: seq<Key>, o: Outside)
    requires keys != [] && Silent(env.sigs, env.payload, keys, o)
    ensures Verified(env, keys, o).Err?
    ensures Verified(env, keys, o).error == BadSignature <==> Claims(env.sigs, keys)
    ensures Verified(env, keys, o).error == Internal <==>
              !Claims(env.sigs, keys) && exists i :: 0 <= i < |env.sigs| && !env.sigs[i].keyId.Str?
    ensures Verified(env, keys, o).error == UnknownKey(false) <==>
              !Claims(env.sigs, keys) && (forall i :: 0 <= i < |env.sigs| ==> env.sigs[i].keyId.Str?)
              && exists i :: 0 <= i < |env.sigs| && env.sigs[i].keyId.Str? && env.sigs[i].keyId.t.Lone?
    ensures Verified(env, keys, o).error in {BadSignature, Internal, UnknownKey(true), UnknownKey(false)}
  {
    hide Vouches, PublicOf, Hashable;
    SilentScan(env.sigs, env.payload, keys, o, false, []);
    var unknown := Strangers(env.sigs, keys);
    assert [] + unknown == unknown;
    if !Claims(env.sigs, keys) {
      forall i | 0 <= i < |env.sigs| ensures env.sigs[i].keyId in unknown {
        StrangersAre(env.sigs, keys, env.sigs[i].keyId);
      }
      forall j | j in unknown ensures exists i :: 0 <= i < |env.sigs| && env.sigs[i].keyId == j {
        StrangersAre(env.sigs, keys, j);
      }
    }
  }

  /** In a derived root, the key found is the one the signature names. */
  lemma {:induction false} PublicIsNamed(keys: seq<Key>, id: Json)
    ensures PublicOf(keys, id).Some? ==>
              exists k :: k in keys && Str(Plain(k.id)) == id && PublicOf(keys, id) == Some(k.public)
  {
    if keys != [] {
      PublicIsNamed(keys[..|keys| - 1], id);
      assert keys == keys[..|keys| - 1] + [keys[|keys| - 1]];
    }
  }

  // --- the announce ---------------------------------------------------------------------------------------

  /** `storable`: the whole document, which the state keeps as it is, can be encoded. */
  datatype Announce = Announce(version: Text, sha: Text, wheelSha: Text, lineage: seq<Text>, storable: bool)

  function Named(j: Option<Json>): Option<Text> {
    if j.Some? && j.value.Str? && j.value.t != Plain("") then Some(j.value.t) else None
  }

  function Strings(items: seq<Json>): Option<seq<Text>> {
    if items == [] then Some([])
    else if !items[0].Str? then None
    else match Strings(items[1..])
         case None => None
         case Some(rest) => Some([items[0].t] + rest)
  }

  function LineageOf(j: Json): Option<seq<Text>> {
    match Get(j, "lineage")
    case None => Some([])
    case Some(Arr(items)) => if |items| <= LINEAGE_MAX then Strings(items) else None
    case _ => None
  }

  /** `parse_announce`. */
  function ParseAnnounce(raw: seq<Byte>, o: Outside): Result<Announce, Fault> {
    match Loads(raw, o)
    case None => Err(Malformed)
    case Some(j) =>
      if Get(j, "schema") != Some(Str(Plain(ANNOUNCE_SCHEMA))) then Err(Malformed)
      else
        match Get(j, "edition")
        case None => Err(Malformed)
        case Some(ed) =>
          var version, sha := Named(Get(ed, "version")), Named(Get(ed, "sha"));
          var wheel := match Get(ed, "wheel") case None => None case Some(w) => Named(Get(w, "sha256"));
          if version.None? || sha.None? || wheel.None? || LineageOf(j).None? then Err(Malformed)
          else Ok(Announce(version.value, sha.value, wheel.value, LineageOf(j).value, Encodable(j)))
  }

  // --- one poll ---------------------------------------------------------------------------------------------

  /** What came of the request. `BadScheme` is a URL that is not http(s); `Down` quotes the URL in its
      reason, and `Crash` whatever exception nothing foresaw. */
  datatype Fetch = Served(body: seq<Byte>) | BadScheme | Down(reason: Text) | Crash(reason: Text)

  /** `readable`: the reason of the failure holds no lone surrogate. */
  datatype AttemptState = Fine | NoTrustRoot | Failed(fault: Fault, readable: bool)
  datatype Attempt = Never | Attempt(at: nat, state: AttemptState)
  datatype Success = Success(at: nat, announce: Announce)
  datatype View = View(success: Option<Success>, attempt: Attempt)

  /** The file of the poll state; `Foreign` is unreadable, or of another schema. */
  datatype Disk = Nothing | Foreign | Saved(view: View)

  /** What becomes of the write of the state: `NoFile`, the temporary file cannot even be opened; `Lost`,
      it is opened, but the new state does not replace the old one. */
  datatype Write = Stored | NoFile | Lost

  /** `path` is that of the keys file, which every refusal of its content quotes. */
  datatype Poll = Poll(path: Text, keys: KeysFile, fetch: Fetch, write: Write, at: nat)

  function ReadState(disk: Disk): View {
    if disk.Saved? then disk.view else View(None, Never)
  }

  function Fetched(fetch: Fetch): Result<seq<Byte>, Fault> {
    match fetch
    case Served(body) => if |body| > MAX_BODY then Err(Malformed) else Ok(body)
    case BadScheme => Err(Malformed)
    case Down(_) => Err(Unreachable)
    case Crash(_) => Err(Internal)
  }

  /** The reason quotes nothing that holds a lone surrogate. */
  predicate Quotable(fetch: Fetch) {
    (fetch.Down? || fetch.Crash?) ==> fetch.reason.Plain?
  }

  function Examined(body: seq<Byte>, keys: seq<Key>, o: Outside): Result<Announce, Fault> {
    match ParseEnvelope(body, o)
    case Err(fault) => Err(fault)
    case Ok(env) =>
      match Verified(env, keys, o)
      case Err(fault) => Err(fault)
      case Ok(payload) => ParseAnnounce(payload, o)
  }

  /** What a poll concludes; `None` is an exception that escapes the reading of the keys. */
  function Concluded(poll: Poll, o: Outside): Option<(AttemptState, Option<Announce>)> {
    match Root(poll.keys, o)
    case Err(Escapes) => None
    case Err(BadRoot) => Some((Failed(Malformed, poll.path.Plain?), None))
    case Ok(keys) =>
      if keys == [] then Some((NoTrustRoot, None))
      else
        match Fetched(poll.fetch)
        case Err(fault) => Some((Failed(fault, Quotable(poll.fetch)), None))
        case Ok(body) =>
          match Examined(body, keys, o)
          case Err(fault) => Some((Failed(fault, fault != UnknownKey(false)), None))
          case Ok(announce) => Some((Fine, Some(announce)))
  }

  function NextView(before: View, poll: Poll, state: AttemptState, announce: Option<Announce>): View {
    View(if announce.Some? then Some(Success(poll.at, announce.value)) else before.success, Attempt(poll.at, state))
  }

  /** No string of the view holds a lone surrogate: neither the reason of the attempt nor the announce. */
  predicate Writable(view: View) {
    (view.success.Some? ==> view.success.value.announce.storable)
    && (view.attempt.Attempt? && view.attempt.state.Failed? ==> view.attempt.state.readable)
  }

  /** An exception escapes `refresh`: from the keys file, or from the encoding of the state, which
      `_write_state` does not catch. */
  predicate Raises(disk: Disk, poll: Poll, o: Outside) {
    match Concluded(poll, o)
    case None => true
    case Some((state, announce)) =>
      poll.write != NoFile && !Writable(NextView(ReadState(disk), poll, state, announce))
  }

  /** The view `refresh` returns, when it returns. */
  function Told(disk: Disk, poll: Poll, o: Outside): Option<View> {
    if Raises(disk, poll, o) then None
    else match Concluded(poll, o)
         case None => None
         case Some((state, announce)) => Some(NextView(ReadState(disk), poll, state, announce))
  }

  function AfterPoll(disk: Disk, poll: Poll, o: Outside): Disk {
    match Told(disk, poll, o)
    case None => disk
    case Some(view) => if poll.write == Stored then Saved(view) else disk
  }

  class ChannelState {
    var disk: Disk

    constructor ()
      ensures disk == Nothing
    {
      disk := Nothing;
    }

    /** `refresh`: the last success survives a failure, and a state that cannot be written changes
        nothing on disk. */
    method Refresh(poll: Poll, o: Outside) returns (view: Option<View>)
      modifies this
      ensures disk == AfterPoll(old(disk), poll, o)
      ensures view == Told(old(disk), poll, o)
    {
      hide Concluded;
      var success := ReadState(disk).success;
      var concluded := Attempted(poll, o);
      if concluded.None? {
        return None;
      }
      var (state, announce) := concluded.value;
      if announce.Some? {
        success := Some(Success(poll.at, announce.value));
      }
      var after := View(success, Attempt(poll.at, state));
      if poll.write != NoFile && !Writable(after) {
        return None;
      }
      if poll.write == Stored {
        disk := Saved(after);
      }
      view := Some(after);
    }

    /** Its first half: what is read and verified, before anything is written. */
    static method Attempted(poll: Poll, o: Outside) returns (c: Option<(AttemptState, Option<Announce>)>)
      ensures c == Concluded(poll, o)
    {
      hide Root, ParseEnvelope, Verified, ParseAnnounce;
      var keys := TrustRoot(poll.keys, o);
      if keys.Err? {
        return if keys.error == Escapes then None else Some((Failed(Malformed, poll.path.Plain?), None));
      }
      if keys.value == [] {
        return Some((NoTrustRoot, None));
      }
      var body := Fetched(poll.fetch);
      if body.Err? {
        return Some((Failed(body.error, Quotable(poll.fetch)), None));
      }
      var env := ParseEnvelope(body.value, o);
      if env.Err? {
        return Some((Failed(env.error, env.error != UnknownKey(false)), None));
      }
      var payload := VerifyEnvelope(env.value, keys.value, o);
      if payload.Err? {
        return Some((Failed(payload.error, payload.error != UnknownKey(false)), None));
      }
      var announce := ParseAnnounce(payload.value, o);
      c := Some(if announce.Err? then (Failed(announce.error, announce.error != UnknownKey(false)), None)
                else (Fine, Some(announce.value)));
    }
  }

  // --- over any run of polls ----------------------------------------------------------------------------------

  function Polled(disk: Disk, polls: seq<Poll>, o: Outside): Disk {
    if polls == [] then disk else AfterPoll(Polled(disk, polls[..|polls| - 1], o), polls[|polls| - 1], o)
  }

  /** The announce was served by this poll in an envelope that one of its signatures vouches for, under
      a key of THIS poll's trust root whose derived identifier is the one the signature names. */
  ghost predicate Founded(poll: Poll, a: Announce, o: Outside) {
    exists keys: seq<Key>, env: Envelope, s: Sig, k: Key ::
      Root(poll.keys, o) == Ok(keys) && poll.fetch.Served? && |poll.fetch.body| <= MAX_BODY
      && ParseEnvelope(poll.fetch.body, o) == Ok(env) && s in env.sigs && k in keys
      && s.keyId == Str(Plain(k.id)) && k.id == o.keyId(k.public)
      && o.verify(k.public, s.sig, SigningMessage(env.payload))
      && ParseAnnounce(env.payload, o) == Ok(a)
  }

  lemma AcceptedIsFounded(poll: Poll, o: Outside)
    requires Concluded(poll, o).Some? && Concluded(poll, o).value.1.Some?
    ensures Founded(poll, Concluded(poll, o).value.1.value, o)
  {
    hide Root, ParseEnvelope, ParseAnnounce, Scan, PublicOf, Derived, SigningMessage;
    var keys := Root(poll.keys, o).value;
    var env := ParseEnvelope(poll.fetch.body, o).value;
    RootIsDerived(poll.keys, o);
    var i := ScanFinds(env.sigs, env.payload, keys, o, false, []);
    var s := env.sigs[i];
    PublicIsNamed(keys, s.keyId);
    var k: Key :| k in keys && Str(Plain(k.id)) == s.keyId && PublicOf(keys, s.keyId) == Some(k.public);
    DerivedMeans(keys, k, o);
    assert s in env.sigs && o.verify(k.public, s.sig, SigningMessage(env.payload));
  }

  lemma DerivedMeans(keys: seq<Key>, k: Key, o: Outside)
    requires Derived(keys, o) && k in keys
    ensures k.id == o.keyId(k.public)
  {
  }

  predicate Succeeds(poll: Poll, o: Outside) {
    poll.write == Stored && Concluded(poll, o).Some? && Concluded(poll, o).value.1.Some?
    && Concluded(poll, o).value.1.value.storable
  }

  /** The last poll that succeeded and was written. */
  function LastSuccess(polls: seq<Poll>, o: Outside): Option<Poll> {
    if polls == [] then None
    else if Succeeds(polls[|polls| - 1], o) then Some(polls[|polls| - 1])
    else LastSuccess(polls[..|polls| - 1], o)
  }

  /** CHANNEL SAFETY. Over any run of polls, whatever was served, whatever trust roots came and went and
      whichever writes failed, the stored success is exactly that of the last poll that succeeded and
      could be written, and it is founded; no failed poll ever alters it. */
  lemma {:induction false} StoredSuccessIsFounded(polls: seq<Poll>, o: Outside)
    ensures var stored := ReadState(Polled(Nothing, polls, o)).success;
            match LastSuccess(polls, o)
            case None => stored.None?
            case Some(p) =>
              p in polls && Concluded(p, o).Some? && Concluded(p, o).value.1.Some?
              && stored == Some(Success(p.at, Concluded(p, o).value.1.value))
              && Founded(p, Concluded(p, o).value.1.value, o)
  {
    hide Concluded, Founded, Root;
    if polls != [] {
      var last := polls[|polls| - 1];
      StoredSuccessIsFounded(polls[..|polls| - 1], o);
      assert polls == polls[..|polls| - 1] + [last];
      AnnouncedIsFine(last, o);
      if Succeeds(last, o) {
        AcceptedIsFounded(last, o);
      }
    }
  }

  lemma AnnouncedIsFine(poll: Poll, o: Outside)
    ensures Concluded(poll, o).Some? && Concluded(poll, o).value.1.Some? ==> Concluded(poll, o).value.0 == Fine
  {
    hide Root, Examined;
  }

  // --- the verdict ------------------------------------------------------------------------------------------------

  datatype Verdict =
    | NeverVerified | RootMissing | Unverified | ChannelUnreachable | UpToDate | Available | CannotSituate

  function Situate(a: Announce, build: Option<string>): Verdict {
    if build.None? || build.value == "" then CannotSituate
    else if Plain(build.value) == a.sha then UpToDate
    else if Plain(build.value) in a.lineage then Available
    else CannotSituate
  }

  predicate Hard(state: AttemptState) {
    state.Failed? && (state.fault == BadSignature || state.fault.UnknownKey?)
  }

  function Judge(view: View, build: Option<string>): Verdict {
    if view.attempt.Attempt? && view.attempt.state == NoTrustRoot then RootMissing
    else if view.attempt.Attempt? && Hard(view.attempt.state) then Unverified
    else if view.success.None? then
      (if view.attempt.Attempt? && view.attempt.state.Failed? then ChannelUnreachable else NeverVerified)
    else Situate(view.success.value.announce, build)
  }

  /** `available` is never said by default: over any run of polls, some poll was served an announce that
      a key of its own trust root vouches for, whose lineage holds the build that runs, and the last
      recorded attempt is neither a lie about a signature nor an edition without keys. */
  lemma AvailableIsFounded(polls: seq<Poll>, build: Option<string>, o: Outside)
    requires Judge(ReadState(Polled(Nothing, polls, o)), build) == Available
    ensures exists p :: p in polls && Succeeds(p, o) && Founded(p, Concluded(p, o).value.1.value, o)
              && build.Some? && Plain(build.value) in Concluded(p, o).value.1.value.lineage
              && Plain(build.value) != Concluded(p, o).value.1.value.sha
    ensures var attempt := ReadState(Polled(Nothing, polls, o)).attempt;
            attempt.Never? || !(Hard(attempt.state) || attempt.state == NoTrustRoot)
  {
    hide Concluded, Founded, Root;
    StoredSuccessIsFounded(polls, o);
    LastSuccessSucceeds(polls, o);
  }

  lemma {:induction false} LastSuccessSucceeds(polls: seq<Poll>, o: Outside)
    ensures LastSuccess(polls, o).Some? ==> Succeeds(LastSuccess(polls, o).value, o)
  {
    if polls != [] {
      LastSuccessSucceeds(polls[..|polls| - 1], o);
    }
  }

  /** The keys file is there and is not UTF-8. */
  predicate KeysNotText(poll: Poll) {
    poll.keys.Present? && StrictText(poll.keys.bytes).None?
  }

  /** What is served names, by strings alone, none of the keys of the root, and one of these strings holds
      a lone surrogate. No signature is needed. */
  ghost predicate NamesALoneStranger(poll: Poll, o: Outside) {
    exists keys: seq<Key>, env: Envelope ::
      Root(poll.keys, o) == Ok(keys) && keys != [] && poll.fetch.Served? && |poll.fetch.body| <= MAX_BODY
      && ParseEnvelope(poll.fetch.body, o) == Ok(env) && !Claims(env.sigs, keys)
      && (forall i :: 0 <= i < |env.sigs| ==> env.sigs[i].keyId.Str?)
      && exists i :: 0 <= i < |env.sigs| && env.sigs[i].keyId.Str? && env.sigs[i].keyId.t.Lone?
  }

  /** The keys file is refused, and its path, quoted in the reason, holds a lone surrogate. */
  predicate RefusedUnderALonePath(poll: Poll, o: Outside) {
    Root(poll.keys, o) == Err(BadRoot) && poll.path.Lone?
  }

  /** There is a trust root, and the request fails with a reason that holds a lone surrogate: that of the
      URL, for one. Nothing is served. */
  predicate FailsOnALoneReason(poll: Poll, o: Outside) {
    Root(poll.keys, o).Ok? && Root(poll.keys, o).value != []
    && (poll.fetch.Down? || poll.fetch.Crash?) && poll.fetch.reason.Lone?
  }

  /** The announce is accepted, and holds a lone surrogate somewhere. */
  predicate AnnouncesUnstorable(poll: Poll, o: Outside) {
    Concluded(poll, o).Some? && Concluded(poll, o).value.1.Some? && !Concluded(poll, o).value.1.value.storable
  }

  /** `refresh` promises never to raise. After any run of polls it does, exactly when the keys file is
      there and is not UTF-8, or, the state file being open, when what is to be written holds a lone
      surrogate: one served as an unknown identifier, one in an accepted announce, one in the path of a keys
      file that is refused, or one in the reason of a request that fails. */
  lemma RefreshRaisesExactly(polls: seq<Poll>, poll: Poll, o: Outside)
    ensures Raises(Polled(Nothing, polls, o), poll, o) <==>
              KeysNotText(poll)
              || (poll.write != NoFile
                  && (NamesALoneStranger(poll, o) || AnnouncesUnstorable(poll, o)
                      || RefusedUnderALonePath(poll, o) || FailsOnALoneReason(poll, o)))
  {
    hide Concluded, NamesALoneStranger, RefusedUnderALonePath, FailsOnALoneReason, Polled, StrictText;
    OnlyKeysEscape(poll, o);
    StoredIsWritable(polls, o);
    UnreadableExactly(poll, o);
  }

  lemma OnlyKeysEscape(poll: Poll, o: Outside)
    ensures Concluded(poll, o).None? <==> KeysNotText(poll)
  {
    hide Examined, Entries, StrictText;
    if poll.keys.Present? && StrictText(poll.keys.bytes).Some? {
      match DeclaredKeys(poll.keys.bytes, o)
      case Err(_) =>
      case Ok(items) => EntriesNeverEscape(items, [], o);
    }
  }

  lemma {:induction false} StoredIsWritable(polls: seq<Poll>, o: Outside)
    ensures Writable(ReadState(Polled(Nothing, polls, o)))
  {
    hide Concluded;
    if polls != [] {
      StoredIsWritable(polls[..|polls| - 1], o);
    }
  }

  lemma UnreadableExactly(poll: Poll, o: Outside)
    ensures (Concluded(poll, o).Some? && Concluded(poll, o).value.0.Failed? && !Concluded(poll, o).value.0.readable)
            <==> NamesALoneStranger(poll, o) || RefusedUnderALonePath(poll, o) || FailsOnALoneReason(poll, o)
  {
    hide Root, ParseEnvelope, ParseAnnounce, Verified, PublicOf;
    if Root(poll.keys, o).Ok? && Root(poll.keys, o).value != [] && Fetched(poll.fetch).Ok?
       && ParseEnvelope(poll.fetch.body, o).Ok? {
      var keys, env := Root(poll.keys, o).value, ParseEnvelope(poll.fetch.body, o).value;
      AnnounceFaultIsMalformed(env.payload, o);
      UnreadableScan(env, keys, o);
      VerifiedExactly(env, keys, o);
    }
    ParseFaultIsMalformed(poll, o);
  }

  lemma ParseFaultIsMalformed(poll: Poll, o: Outside)
    ensures poll.fetch.Served? && ParseEnvelope(poll.fetch.body, o).Err? ==>
              ParseEnvelope(poll.fetch.body, o).error == Malformed
  {
  }

  lemma AnnounceFaultIsMalformed(payload: seq<Byte>, o: Outside)
    ensures ParseAnnounce(payload, o).Err? ==> ParseAnnounce(payload, o).error == Malformed
  {
  }

  lemma UnreadableScan(env: Envelope, keys: seq<Key>, o: Outside)
    requires keys != []
    ensures Verified(env, keys, o) == Err(UnknownKey(false)) <==>
              !Claims(env.sigs, keys) && (forall i :: 0 <= i < |env.sigs| ==> env.sigs[i].keyId.Str?)
              && exists i :: 0 <= i < |env.sigs| && env.sigs[i].keyId.Str? && env.sigs[i].keyId.t.Lone?
  {
    hide PublicOf, Scan;
    if Silent(env.sigs, env.payload, keys, o) {
      ScanRefuses(env, keys, o);
    } else {
      NotSilent(env.sigs, env.payload, keys, o, false, []);
    }
  }

  /** A scan that is not silent answers, or stops on an identifier that cannot be looked up. */
  lemma {:induction false} NotSilent(sigs: seq<Sig>, payload: seq<Byte>, keys: seq<Key>, o: Outside, invalid: bool,
                                     unknown: seq<Json>)
    requires !Silent(sigs, payload, keys, o)
    ensures Scan(sigs, payload, keys, o, invalid, unknown) in {Ok(payload), Err(Internal)}
    ensures Claims(sigs, keys) || exists i :: 0 <= i < |sigs| && !sigs[i].keyId.Str?
    decreases sigs
  {
    hide PublicOf, Refusal;
    var i :| 0 <= i < |sigs| && !(Hashable(sigs[i].keyId) && !Vouches(sigs[i], payload, keys, o));
    assert Hashable(sigs[i].keyId) ==> PublicOf(keys, sigs[i].keyId).Some?;
    if Hashable(sigs[0].keyId) && !Vouches(sigs[0], payload, keys, o) {
      assert sigs[1..][i - 1] == sigs[i];
      NotSilent(sigs[1..], payload, keys, o, true, unknown);
      NotSilent(sigs[1..], payload, keys, o, invalid, unknown + [sigs[0].keyId]);
    }
  }

  /** DOWNGRADED. Anyone can turn the hard refusal of a body that names no known key into a soft one,
      without signing anything: one identifier that is not a string is enough, and exactly what it takes.
      An announce that was verified before then stays `available`, instead of being interrupted. */
  lemma OneOddIdentifierSoftensTheRefusal(disk: Disk, poll: Poll, env: Envelope, keys: seq<Key>, build: Option<string>,
                                          o: Outside)
    requires Root(poll.keys, o) == Ok(keys) && keys != []
    requires poll.fetch.Served? && |poll.fetch.body| <= MAX_BODY && ParseEnvelope(poll.fetch.body, o) == Ok(env)
    requires Silent(env.sigs, env.payload, keys, o) && !Claims(env.sigs, keys)
    requires Told(disk, poll, o).Some? && ReadState(disk).success.Some?
    ensures var view := Told(disk, poll, o).value;
            var odd := exists i :: 0 <= i < |env.sigs| && !env.sigs[i].keyId.Str?;
            view.success == ReadState(disk).success
            && Judge(view, build) == if odd then Situate(ReadState(disk).success.value.announce, build) else Unverified
  {
    hide Root, ParseEnvelope, Verified, Claims, Silent, Situate;
    ScanRefuses(env, keys, o);
  }

  lemma {:induction false} EntriesNeverEscape(items: seq<Json>, kept: seq<Key>, o: Outside)
    ensures Entries(items, kept, o) != Err(Escapes)
    decreases items
  {
    if items != [] && KeyOf(items[0], o).Some? && !Names(kept, KeyOf(items[0], o).value.id) {
      EntriesNeverEscape(items[1..], kept + [KeyOf(items[0], o).value], o);
    }
  }

  // --- each document, exactly ---------------------------------------------------------------------------

  /** What is signed begins with the name of the format, so a signature made for another use says nothing
      here, and two payloads never share one. */
  lemma DomainSeparated(p: seq<Byte>, q: seq<Byte>)
    ensures SigningMessage(p) == Encode("forgemaster-update-channel/1\n") + p
    ensures SigningMessage(p) == SigningMessage(q) <==> p == q
  {
    var head := Encode(ENVELOPE_SCHEMA + "\n");
    assert ENVELOPE_SCHEMA + "\n" == "forgemaster-update-channel/1\n";
    hide Encode;
    assert (head + p)[|head|..] == p && (head + q)[|head|..] == q;
  }

  /** A strict decoding answers with the one text these bytes encode, if there is one. */
  lemma StrictTextExactly(bs: seq<Byte>, t: string)
    ensures StrictText(bs) == Some(t) <==> Encode(t) == bs
  {
    StrictTextOfEncoded(t);
  }

  /** These bytes are the strict text of document `j`. */
  ghost predicate Says(raw: seq<Byte>, j: Json, o: Outside) {
    exists t: string :: Encode(t) == raw && o.parse(t) == Some(j)
  }

  predicate Field(j: Json, name: string, v: Json) {
    j.Obj? && name in j.fields && j.fields[name] == v
  }

  lemma LoadsExactly(raw: seq<Byte>, j: Json, o: Outside)
    ensures Loads(raw, o) == Some(j) <==> Says(raw, j, o)
  {
    hide Encode, Decode;
    if t: string :| Encode(t) == raw && o.parse(t) == Some(j) {
      StrictTextExactly(raw, t);
    }
    if StrictText(raw).Some? {
      StrictTextExactly(raw, StrictText(raw).value);
    }
  }

  /** What an announce must hold: a version, a digest of the edition and one of its wheel, none of them empty,
      and at most fifty ancestors, all strings. */
  ghost predicate Announces(j: Json, a: Announce) {
    && Field(j, "schema", Str(Plain("forgemaster-edition-announce/1")))
    && a.version != Plain("") && a.sha != Plain("") && a.wheelSha != Plain("")
    && (exists ed: Json, w: Json ::
          Field(j, "edition", ed) && Field(ed, "version", Str(a.version)) && Field(ed, "sha", Str(a.sha))
          && Field(ed, "wheel", w) && Field(w, "sha256", Str(a.wheelSha)))
    && (if "lineage" in j.fields
        then j.fields["lineage"].Arr? && |a.lineage| == |j.fields["lineage"].items| <= 50
             && forall i :: 0 <= i < |a.lineage| ==> j.fields["lineage"].items[i] == Str(a.lineage[i])
        else a.lineage == [])
    && a.storable == Encodable(j)
  }

  lemma {:induction false} StringsExactly(items: seq<Json>, texts: seq<Text>)
    ensures Strings(items) == Some(texts) <==>
              |texts| == |items| && forall i :: 0 <= i < |items| ==> items[i] == Str(texts[i])
  {
    if items != [] && texts != [] {
      StringsExactly(items[1..], texts[1..]);
      assert texts == [texts[0]] + texts[1..] && items == [items[0]] + items[1..];
      assert forall i :: 0 < i < |items| ==> items[i] == items[1..][i - 1];
      assert forall i :: 0 < i < |texts| ==> texts[i] == texts[1..][i - 1];
    }
  }

  /** ANNOUNCE, exactly: accepted, as it is, if and only if it holds all of that. */
  lemma AnnounceExactly(raw: seq<Byte>, a: Announce, o: Outside)
    ensures ParseAnnounce(raw, o) == Ok(a) <==> exists j: Json :: Says(raw, j, o) && Announces(j, a)
  {
    hide Says, Encodable, Loads;
    forall j: Json ensures Loads(raw, o) == Some(j) <==> Says(raw, j, o) {
      LoadsExactly(raw, j, o);
    }
    if Loads(raw, o).Some? {
      AnnouncedBy(Loads(raw, o).value, raw, a, o);
    }
  }

  lemma LineageExactly(j: Json, texts: seq<Text>)
    requires j.Obj?
    ensures LineageOf(j) == Some(texts) <==>
              if "lineage" in j.fields
              then j.fields["lineage"].Arr? && |texts| == |j.fields["lineage"].items| <= 50
                   && forall i :: 0 <= i < |texts| ==> j.fields["lineage"].items[i] == Str(texts[i])
              else texts == []
  {
    hide Strings;
    if "lineage" in j.fields && j.fields["lineage"].Arr? {
      StringsExactly(j.fields["lineage"].items, texts);
    }
  }

  lemma AnnouncedBy(j: Json, raw: seq<Byte>, a: Announce, o: Outside)
    requires Loads(raw, o) == Some(j)
    ensures ParseAnnounce(raw, o) == Ok(a) <==> Announces(j, a)
  {
    hide Loads, Encodable, LineageOf;
    if j.Obj? {
      LineageExactly(j, a.lineage);
      if ParseAnnounce(raw, o) == Ok(a) {
        var ed := j.fields["edition"];
        assert Field(j, "edition", ed) && Field(ed, "wheel", ed.fields["wheel"]);
      }
    }
  }

  /** What an envelope must hold: a payload and at least one signature, in strict base64url, and an identifier
      beside each, of any kind. */
  ghost predicate Envelops(j: Json, env: Envelope) {
    && Field(j, "schema", Str(Plain("forgemaster-update-channel/1")))
    && (exists p: string :: Field(j, "payload", Str(Plain(p))) && Base64.Bytes(p) == Some(env.payload))
    && "signatures" in j.fields && j.fields["signatures"].Arr? && |env.sigs| == |j.fields["signatures"].items| > 0
    && forall i :: 0 <= i < |env.sigs| ==> Signs(j.fields["signatures"].items[i], env.sigs[i])
  }

  ghost predicate Signs(j: Json, s: Sig) {
    Field(j, "key_id", s.keyId)
    && exists t: string :: Field(j, "sig", Str(Plain(t))) && Base64.Bytes(t) == Some(s.sig)
  }

  lemma {:induction false} SigsExactly(items: seq<Json>, sigs: seq<Sig>)
    ensures SigsOf(items) == Some(sigs) <==>
              |sigs| == |items| && forall i :: 0 <= i < |items| ==> Signs(items[i], sigs[i])
  {
    hide Base64.Bytes;
    if items != [] && sigs != [] {
      SigsExactly(items[1..], sigs[1..]);
      assert SigOf(items[0]) == Some(sigs[0]) <==> Signs(items[0], sigs[0]);
      hide Signs, SigOf;
      assert sigs == [sigs[0]] + sigs[1..] && items == [items[0]] + items[1..];
      assert forall i :: 0 < i < |items| ==> items[i] == items[1..][i - 1];
      assert forall i :: 0 < i < |sigs| ==> sigs[i] == sigs[1..][i - 1];
    }
  }

  /** ENVELOPE, exactly. */
  lemma EnvelopeExactly(raw: seq<Byte>, env: Envelope, o: Outside)
    ensures ParseEnvelope(raw, o) == Ok(env) <==> exists j: Json :: Says(raw, j, o) && Envelops(j, env)
  {
    hide Says, Loads, SigsOf, Signs, Base64.Bytes;
    forall j: Json ensures Loads(raw, o) == Some(j) <==> Says(raw, j, o) {
      LoadsExactly(raw, j, o);
    }
    if Loads(raw, o).Some? {
      var j := Loads(raw, o).value;
      if j.Obj? && "signatures" in j.fields && j.fields["signatures"].Arr? {
        SigsExactly(j.fields["signatures"].items, env.sigs);
      }
    }
  }

  /** The declared key `j` is `k`: its public part, in strict base64url, under the identifier derived from it. */
  ghost predicate Declares(j: Json, k: Key, o: Outside) {
    k.id == o.keyId(k.public) && Field(j, "key_id", Str(Plain(k.id)))
    && exists t: string :: Field(j, "public", Str(Plain(t))) && Base64.Bytes(t) == Some(k.public)
  }

  lemma DeclaredKey(j: Json, k: Key, o: Outside)
    ensures KeyOf(j, o) == Some(k) <==> Declares(j, k, o)
  {
    hide Base64.Bytes;
  }

  /** The keys of an accepted root, after those already kept, are the declared ones, in order; and no two have
      the same identifier. */
  ghost predicate Rooted(items: seq<Json>, kept: seq<Key>, keys: seq<Key>, o: Outside) {
    |keys| == |kept| + |items| && keys[..|kept|] == kept
    && (forall i :: 0 <= i < |items| ==> Declares(items[i], keys[|kept| + i], o))
    && forall i, j :: 0 <= i < j < |keys| ==> keys[i].id != keys[j].id
  }

  lemma RootedStep(items: seq<Json>, kept: seq<Key>, k: Key, keys: seq<Key>, o: Outside)
    requires items != []
    ensures Rooted(items, kept, keys, o) && Declares(items[0], k, o) && keys[|kept|] == k ==>
              Rooted(items[1..], kept + [k], keys, o)
    ensures Rooted(items[1..], kept + [k], keys, o) && Declares(items[0], k, o) ==>
              Rooted(items, kept, keys, o) && keys[|kept|] == k
  {
    hide Declares;
    var n := |kept|;
    if Rooted(items, kept, keys, o) && keys[n] == k {
      assert keys[..n + 1] == kept + [k];
      assert forall i :: 0 <= i < |items[1..]| ==> items[1..][i] == items[i + 1];
    }
    if Rooted(items[1..], kept + [k], keys, o) && Declares(items[0], k, o) {
      assert keys[..n + 1][..n] == keys[..n] && (kept + [k])[..n] == kept && keys[..n + 1][n] == (kept + [k])[n];
      forall i | 0 <= i < |items| ensures Declares(items[i], keys[n + i], o) {
        if i > 0 {
          assert items[i] == items[1..][i - 1];
        }
      }
    }
  }

  lemma {:induction false} EntriesExactly(items: seq<Json>, kept: seq<Key>, keys: seq<Key>, o: Outside)
    requires forall i, j :: 0 <= i < j < |kept| ==> kept[i].id != kept[j].id
    ensures Entries(items, kept, o) == Ok(keys) <==> Rooted(items, kept, keys, o)
    decreases items
  {
    hide Declares, KeyOf;
    if items == [] {
      assert |keys| == |kept| ==> keys[..|kept|] == keys;
    } else {
      if Rooted(items, kept, keys, o) {
        var k := keys[|kept|];
        DeclaredKey(items[0], k, o);
        assert !Names(kept, k.id) by {
          assert forall i :: 0 <= i < |kept| ==> kept[i] == keys[..|kept|][i] == keys[i];
        }
      }
      var key := KeyOf(items[0], o);
      if key.Some? && !Names(kept, key.value.id) {
        DeclaredKey(items[0], key.value, o);
        RootedStep(items, kept, key.value, keys, o);
        assert forall i :: 0 <= i < |kept| ==> kept[i] in kept;
        hide Rooted;
        EntriesExactly(items[1..], kept + [key.value], keys, o);
      }
    }
  }

  /** TRUST ROOT, exactly. No file is no key at all; a file is accepted if and only if it is the strict text of
      a document that declares keys, at least one, each under its derived identifier, no two under the same;
      and these are the keys, in the order in which they are declared. */
  lemma RootExactly(file: KeysFile, keys: seq<Key>, o: Outside)
    ensures Root(file, o) == Ok(keys) <==>
              match file
              case Absent => keys == []
              case Locked => false
              case Present(raw) =>
                exists j: Json, items: seq<Json> ::
                  Says(raw, j, o) && Field(j, "keys", Arr(items)) && items != [] && Rooted(items, [], keys, o)
  {
    hide Says, Rooted, Entries, Encode, Decode;
    if file.Present? {
      forall j: Json ensures Loads(file.bytes, o) == Some(j) <==> Says(file.bytes, j, o) {
        LoadsExactly(file.bytes, j, o);
      }
      forall items: seq<Json> ensures Entries(items, [], o) == Ok(keys) <==> Rooted(items, [], keys, o) {
        EntriesExactly(items, [], keys, o);
      }
      hide StrictText;
      if Root(file, o) == Ok(keys) {
        var j := Loads(file.bytes, o).value;
        assert Field(j, "keys", j.fields["keys"]);
      }
    }
  }

  // --- one poll, exactly --------------------------------------------------------------------------------

  /** ACCEPTED, exactly: a body that was served, of 256 KiB at most, read under a root that holds a key, and of
      which a signature the scan reaches vouches for the payload, an announce. */
  lemma AcceptedExactly(poll: Poll, a: Announce, o: Outside)
    ensures Concluded(poll, o) == Some((Fine, Some(a))) <==>
              Root(poll.keys, o).Ok? && Root(poll.keys, o).value != []
              && poll.fetch.Served? && |poll.fetch.body| <= 262144
              && exists env: Envelope :: ParseEnvelope(poll.fetch.body, o) == Ok(env)
                   && (exists i: nat :: Decides(env.sigs, i, env.payload, Root(poll.keys, o).value, o))
                   && ParseAnnounce(env.payload, o) == Ok(a)
  {
    hide Root, ParseEnvelope, ParseAnnounce, Verified, Decides;
    if Root(poll.keys, o).Ok? && poll.fetch.Served? && ParseEnvelope(poll.fetch.body, o).Ok? {
      VerifiedExactly(ParseEnvelope(poll.fetch.body, o).value, Root(poll.keys, o).value, o);
    }
  }

  /** And every way not to be: no key at all; keys that cannot be read; a request that failed, by its kind; a
      body that is too long, or that is not what it should be; a signature that does not hold. */
  lemma RefusedExactly(poll: Poll, o: Outside)
    requires Concluded(poll, o).Some?
    ensures var (state, announce) := Concluded(poll, o).value;
            (announce.None? <==> state != Fine)
            && (state == NoTrustRoot <==> Root(poll.keys, o) == Ok([]))
            && (Root(poll.keys, o).Err? ==> state.Failed? && state.fault == Malformed)
            && (Root(poll.keys, o).Ok? && Root(poll.keys, o).value != [] ==>
                  match poll.fetch
                  case Down(_) => state.Failed? && state.fault == Unreachable
                  case Crash(_) => state.Failed? && state.fault == Internal
                  case BadScheme => state.Failed? && state.fault == Malformed
                  case Served(body) =>
                    if |body| > 262144 || ParseEnvelope(body, o).Err? then state.Failed? && state.fault == Malformed
                    else
                      var verified := Verified(ParseEnvelope(body, o).value, Root(poll.keys, o).value, o);
                      if verified.Err? then state.Failed? && state.fault == verified.error
                      else state == Fine || (state.Failed? && state.fault == Malformed))
  {
    hide Root, ParseEnvelope, ParseAnnounce, Verified;
    ParseFaultIsMalformed(poll, o);
    if poll.fetch.Served? && ParseEnvelope(poll.fetch.body, o).Ok? {
      var env := ParseEnvelope(poll.fetch.body, o).value;
      AnnounceFaultIsMalformed(env.payload, o);
      if Root(poll.keys, o).Ok? {
        VerifiedExactly(env, Root(poll.keys, o).value, o);
      }
    }
  }

  /** What `refresh` returns and stores: its own attempt, dated; the announce it accepted, dated too, or else the
      last success there was; on disk, only when the write went through. */
  lemma PolledExactly(disk: Disk, poll: Poll, o: Outside)
    requires Told(disk, poll, o).Some?
    ensures Concluded(poll, o).Some?
    ensures var view := Told(disk, poll, o).value;
            var (state, announce) := Concluded(poll, o).value;
            view.attempt == Attempt(poll.at, state)
            && view.success == (match announce
                                case Some(a) => Some(Success(poll.at, a))
                                case None => if disk.Saved? then disk.view.success else None)
            && AfterPoll(disk, poll, o) == if poll.write == Stored then Saved(view) else disk
  {
    hide Concluded;
  }

  /** THE VERDICT, exactly, in the order of its priorities: an edition without keys; an attempt that lies about
      a signature, even when something was verified before; nothing verified yet, after a failure or not; and
      then where the build stands: it is the edition, it is one of its ancestors, or nobody can say. */
  lemma JudgedExactly(view: View, build: Option<string>)
    ensures var state := if view.attempt.Attempt? then Some(view.attempt.state) else None;
            var hard := state.Some? && state.value.Failed?
                        && state.value.fault in {BadSignature, UnknownKey(true), UnknownKey(false)};
            Judge(view, build)
            == if state == Some(NoTrustRoot) then RootMissing
               else if hard then Unverified
               else if view.success == None then
                 (if state.Some? && state.value.Failed? then ChannelUnreachable else NeverVerified)
               else
                 var a := view.success.value.announce;
                 if build in {None, Some("")} then CannotSituate
                 else if a.sha == Plain(build.value) then UpToDate
                 else if exists i :: 0 <= i < |a.lineage| && a.lineage[i] == Plain(build.value) then Available
                 else CannotSituate
  {
  }

  // --- what can be stored ---------------------------------------------------------------------------------

  datatype Stride = Item(i: nat) | Name(field: string)

  /** The value found in a document along a path, if there is one. */
  function At(j: Json, path: seq<Stride>): Option<Json>
    decreases |path|
  {
    if path == [] then Some(j)
    else
      match path[0]
      case Item(i) => if j.Arr? && i < |j.items| then At(j.items[i], path[1..]) else None
      case Name(f) => if j.Obj? && f in j.fields then At(j.fields[f], path[1..]) else None
  }

  predicate Unwritable(j: Json) {
    (j.Str? && j.t.Lone?) || (j.Obj? && j.odd)
  }

  /** No path leads to a string with a lone surrogate, or to an object with one in a field name. */
  ghost predicate Storable(j: Json) {
    forall path :: At(j, path).Some? ==> !Unwritable(At(j, path).value)
  }

  lemma StorableList(items: seq<Json>)
    ensures Storable(Arr(items)) <==> forall x :: x in items ==> Storable(x)
  {
    var j := Arr(items);
    if Storable(j) {
      forall x, path | x in items && At(x, path).Some? ensures !Unwritable(At(x, path).value) {
        var i :| 0 <= i < |items| && items[i] == x;
        assert ([Item(i)] + path)[1..] == path;
        assert At(j, [Item(i)] + path) == At(x, path);
      }
    } else {
      var path: seq<Stride> :| At(j, path).Some? && Unwritable(At(j, path).value);
      var x := items[path[0].i];
      assert x in items && At(j, path) == At(x, path[1..]);
    }
  }

  lemma StorableObject(fields: map<string, Json>, odd: bool)
    ensures Storable(Obj(fields, odd)) <==> !odd && forall k :: k in fields ==> Storable(fields[k])
  {
    var j := Obj(fields, odd);
    if Storable(j) {
      assert At(j, []) == Some(j);
      forall k, path | k in fields && At(fields[k], path).Some? ensures !Unwritable(At(fields[k], path).value) {
        assert ([Name(k)] + path)[1..] == path;
        assert At(j, [Name(k)] + path) == At(fields[k], path);
      }
    } else {
      var path: seq<Stride> :| At(j, path).Some? && Unwritable(At(j, path).value);
      if path != [] {
        assert At(j, path) == At(fields[path[0].field], path[1..]);
      }
    }
  }

  /** STORABLE, exactly: what the encoding of the state accepts. */
  lemma {:induction false} EncodableExactly(j: Json)
    ensures Encodable(j) <==> Storable(j)
    decreases j
  {
    hide Storable;
    match j
    case Arr(items) =>
      StorableList(items);
      forall x | x in items ensures Encodable(x) <==> Storable(x) {
        EncodableExactly(x);
      }
    case Obj(fields, odd) =>
      StorableObject(fields, odd);
      forall k | k in fields ensures Encodable(fields[k]) <==> Storable(fields[k]) {
        EncodableExactly(fields[k]);
      }
    case _ =>
      StorableLeaf(j);
  }

  lemma StorableLeaf(j: Json)
    requires !j.Arr? && !j.Obj?
    ensures Storable(j) <==> !Unwritable(j)
  {
    assert At(j, []) == Some(j);
    assert forall path :: path != [] ==> At(j, path) == None;
  }
}
