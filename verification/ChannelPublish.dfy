/** The publisher of the update channel (`channel_publish.py`), and its agreement with the client: what
    one writes the other reads back. */
module ChannelPublish {
  import opened Prelude
  import opened Utf8
  import opened Channel
  import Base64

  /** The private side of Ed25519. */
  datatype Signer = Signer(publicOf: seq<Byte> -> seq<Byte>, sign: (seq<Byte>, seq<Byte>) -> seq<Byte>)

  /** RFC 8032, section 5.1: what was signed verifies under the public key of the signer. */
  ghost predicate Honest(o: Outside, signer: Signer) {
    forall private, m :: |private| == 32 ==> o.verify(signer.publicOf(private), signer.sign(private, m), m)
  }

  /** The parser reads back what the printer wrote, with or without a final newline. */
  ghost predicate PrintsBack(o: Outside) {
    forall j :: o.parse(o.print_(j)) == Some(j) && o.parse(o.print_(j) + "\n") == Some(j)
  }

  datatype Refusal = NotAPrivateKey | NoSha | LineageTooLong | InItsOwnLineage

  // --- the documents --------------------------------------------------------------------------------

  function KeyEntry(public: seq<Byte>, o: Outside): Json {
    Obj(map["key_id" := Str(Plain(o.keyId(public))), "public" := Str(Plain(Base64.Text(public)))], false)
  }

  /** `trust_root_document`. */
  function TrustRootDocument(public: seq<Byte>, o: Outside): string {
    o.print_(Obj(map["keys" := Arr([KeyEntry(public, o)])], false)) + "\n"
  }

  function SigEntry(payload: seq<Byte>, private: seq<Byte>, o: Outside, signer: Signer): Json {
    Obj(map["key_id" := Str(Plain(o.keyId(signer.publicOf(private)))),
            "sig" := Str(Plain(Base64.Text(signer.sign(private, SigningMessage(payload)))))], false)
  }

  function EnvelopeOf(payload: seq<Byte>, signatures: seq<Json>): Json {
    Obj(map["schema" := Str(Plain(ENVELOPE_SCHEMA)), "payload" := Str(Plain(Base64.Text(payload))),
            "signatures" := Arr(signatures)], false)
  }

  /** `sign_envelope`. */
  function SignEnvelope(payload: seq<Byte>, private: seq<Byte>, o: Outside, signer: Signer): Result<Json, Refusal> {
    if |private| != 32 then Err(NotAPrivateKey)
    else Ok(EnvelopeOf(payload, [SigEntry(payload, private, o, signer)]))
  }

  /** What is read in the wheel: the version of its metadata, the `sha` of its build stamp, its own name
      and digest. */
  datatype Wheel = Wheel(
    version: string, sha: Json, committedAt: Json, name: Text, digest: string, size: int, maps: Json)

  /** Nothing that is copied from the wheel holds a lone surrogate. */
  predicate Clean(w: Wheel) {
    Encodable(w.sha) && Encodable(w.committedAt) && Encodable(w.maps) && w.name.Plain?
  }

  predicate Falsy(j: Json) {
    j == Null || j == Bool(false) || j == Num(0) || j == Str(Plain("")) || j == Arr([]) || j == Obj(map[], false)
  }

  function Texts(names: seq<string>): seq<Text> {
    if names == [] then [] else [Plain(names[0])] + Texts(names[1..])
  }

  function Strs(names: seq<string>): seq<Json> {
    if names == [] then [] else [Str(Plain(names[0]))] + Strs(names[1..])
  }

  function WheelEntry(w: Wheel): Json {
    Obj(map["name" := Str(w.name), "sha256" := Str(Plain(w.digest)), "size" := Num(w.size)], false)
  }

  function Edition(w: Wheel): Json {
    Obj(map["version" := Str(Plain(w.version)), "sha" := w.sha, "committed_at" := w.committedAt,
            "wheel" := WheelEntry(w), "maps" := w.maps], false)
  }

  /** `build_announce`. */
  function BuildAnnounce(w: Wheel, lineage: seq<string>, publishedAt: string): Result<Json, Refusal> {
    if Falsy(w.sha) then Err(NoSha)
    else if |lineage| > LINEAGE_MAX then Err(LineageTooLong)
    else if w.sha.Str? && w.sha.t.Plain? && w.sha.t.s in lineage then Err(InItsOwnLineage)
    else
      Ok(Obj(map["schema" := Str(Plain(ANNOUNCE_SCHEMA)), "published_at" := Str(Plain(publishedAt)),
                 "edition" := Edition(w), "lineage" := Arr(Strs(lineage))], false))
  }

  /** What the client holds once it has read the announce of a wheel whose stamp names a string. */
  function Announced(w: Wheel, lineage: seq<string>): Announce
    requires w.sha.Str?
  {
    Announce(Plain(w.version), w.sha.t, Plain(w.digest), Texts(lineage), Clean(w))
  }

  // --- each document is read back ---------------------------------------------------------------------

  /** The client reads back the very key the document was derived from, and nothing else. */
  lemma TrustRootReadsBack(public: seq<Byte>, o: Outside)
    requires PrintsBack(o)
    ensures Root(Present(Encode(TrustRootDocument(public, o))), o) == Ok([Key(o.keyId(public), public)])
  {
    var entry := KeyEntry(public, o);
    var doc := Obj(map["keys" := Arr([entry])], false);
    StrictTextOfEncoded(TrustRootDocument(public, o));
    Base64.DecodesWhatWasEncoded(public);
    assert KeyOf(entry, o) == Some(Key(o.keyId(public), public));
    assert o.parse(o.print_(doc) + "\n") == Some(doc);
    hide Encode, Decode, Base64.Text, Base64.Bytes;
    assert DeclaredKeys(Encode(TrustRootDocument(public, o)), o) == Ok([entry]);
    assert [entry][1..] == [] && [] + [Key(o.keyId(public), public)] == [Key(o.keyId(public), public)];
    assert Entries([entry][1..], [] + [Key(o.keyId(public), public)], o) == Ok([Key(o.keyId(public), public)]);
  }

  lemma {:induction false} StringsBack(names: seq<string>)
    ensures Strings(Strs(names)) == Some(Texts(names)) && |Strs(names)| == |names|
    ensures forall j :: j in Strs(names) ==> Encodable(j)
    ensures forall s: string :: Plain(s) in Texts(names) <==> s in names
  {
    SameTexts(names);
    if names != [] {
      hide Texts, Encodable;
      StringsBack(names[1..]);
      assert Strs(names)[1..] == Strs(names[1..]);
      TextsGrow(names);
      PlainIsEncodable(names[0]);
    }
  }

  lemma TextsGrow(names: seq<string>)
    requires names != []
    ensures Texts(names) == [Plain(names[0])] + Texts(names[1..])
  {
  }

  lemma PlainIsEncodable(s: string)
    ensures Encodable(Str(Plain(s)))
  {
  }

  lemma {:induction false} SameTexts(names: seq<string>)
    ensures |Texts(names)| == |names| && forall i :: 0 <= i < |names| ==> Texts(names)[i] == Plain(names[i])
    ensures forall s: string :: Plain(s) in Texts(names) <==> s in names
  {
    if names != [] {
      SameTexts(names[1..]);
    }
    hide Texts;
    forall s: string ensures Plain(s) in Texts(names) <==> s in names {
      if s in names {
        var i :| 0 <= i < |names| && names[i] == s;
        assert Texts(names)[i] == Plain(s);
      }
    }
  }

  lemma AnnounceIsEncodable(w: Wheel, lineage: seq<string>, publishedAt: string)
    requires BuildAnnounce(w, lineage, publishedAt).Ok?
    ensures Encodable(BuildAnnounce(w, lineage, publishedAt).value) <==> Clean(w)
  {
    hide Strs, Edition;
    var j := BuildAnnounce(w, lineage, publishedAt).value;
    StringsBack(lineage);
    EditionIsEncodable(w);
    assert j.fields["edition"] == Edition(w) && Encodable(Arr(Strs(lineage)));
    assert forall k :: k in j.fields ==> k in {"schema", "published_at", "edition", "lineage"};
  }

  lemma EditionIsEncodable(w: Wheel)
    ensures Encodable(Edition(w)) <==> Clean(w)
  {
    hide WheelEntry;
    WheelIsEncodable(w);
    var ed := Edition(w);
    assert ed.fields["sha"] == w.sha && ed.fields["committed_at"] == w.committedAt && ed.fields["maps"] == w.maps;
    assert ed.fields["wheel"] == WheelEntry(w);
  }

  lemma WheelIsEncodable(w: Wheel)
    ensures Encodable(WheelEntry(w)) <==> w.name.Plain?
  {
    var j := WheelEntry(w);
    assert j.fields["name"] == Str(w.name);
  }

  /** What was built is accepted, field for field, if and only if it names a version and its build stamp
      holds a STRING: the publisher only checks that the stamp is not empty. */
  lemma AnnounceReadsBack(w: Wheel, lineage: seq<string>, publishedAt: string, o: Outside)
    requires PrintsBack(o) && w.digest != "" && BuildAnnounce(w, lineage, publishedAt).Ok?
    ensures var read := ParseAnnounce(Encode(o.print_(BuildAnnounce(w, lineage, publishedAt).value)), o);
            (read.Ok? <==> w.version != "" && w.sha.Str?)
            && (read.Ok? ==> read.value == Announced(w, lineage))
  {
    var j := BuildAnnounce(w, lineage, publishedAt).value;
    hide Encode, Loads, Strs, Encodable, Clean, Edition, WheelEntry, Get, LineageOf, BuildAnnounce;
    PrintedIsLoaded(j, o);
    DocumentReadsBack(w, lineage, publishedAt);
    AnnounceIsEncodable(w, lineage, publishedAt);
    EditionReadsBack(w);
  }

  lemma DocumentReadsBack(w: Wheel, lineage: seq<string>, publishedAt: string)
    requires BuildAnnounce(w, lineage, publishedAt).Ok?
    ensures var j := BuildAnnounce(w, lineage, publishedAt).value;
            Get(j, "edition") == Some(Edition(w)) && Get(j, "schema") == Some(Str(Plain(ANNOUNCE_SCHEMA)))
            && LineageOf(j) == Some(Texts(lineage))
  {
    hide Strs, Strings, Edition;
    StringsBack(lineage);
  }

  lemma PrintedIsLoaded(j: Json, o: Outside)
    requires PrintsBack(o)
    ensures Loads(Encode(o.print_(j)), o) == Some(j)
  {
    StrictTextOfEncoded(o.print_(j));
  }

  lemma EditionReadsBack(w: Wheel)
    ensures Get(Edition(w), "version") == Some(Str(Plain(w.version))) && Get(Edition(w), "sha") == Some(w.sha)
    ensures Get(Edition(w), "wheel") == Some(WheelEntry(w))
    ensures Get(WheelEntry(w), "sha256") == Some(Str(Plain(w.digest)))
  {
  }

  lemma {:induction false} SigsConcat(a: seq<Json>, b: seq<Json>)
    ensures SigsOf(a).Some? && SigsOf(b).Some? ==> SigsOf(a + b) == Some(SigsOf(a).value + SigsOf(b).value)
    ensures SigsOf(a).None? || SigsOf(b).None? ==> SigsOf(a + b).None?
    ensures SigsOf(a).Some? ==> |SigsOf(a).value| == |a|
  {
    if a == [] {
      assert a + b == b && (SigsOf(b).Some? ==> [] + SigsOf(b).value == SigsOf(b).value);
    } else {
      hide SigOf;
      assert (a + b)[0] == a[0] && (a + b)[1..] == a[1..] + b;
      SigsConcat(a[1..], b);
      if SigsOf(a).Some? && SigsOf(b).Some? {
        var first := SigOf(a[0]).value;
        assert [first] + (SigsOf(a[1..]).value + SigsOf(b).value) == ([first] + SigsOf(a[1..]).value) + SigsOf(b).value;
      }
    }
  }

  /** Read back, an envelope has the payload and the signatures that were put in it. */
  lemma EnvelopeReadsBack(payload: seq<Byte>, signatures: seq<Json>, o: Outside)
    requires PrintsBack(o) && signatures != []
    ensures ParseEnvelope(Encode(o.print_(EnvelopeOf(payload, signatures))), o)
         == match SigsOf(signatures) case None => Err(Malformed) case Some(sigs) => Ok(Envelope(payload, sigs))
  {
    var j := EnvelopeOf(payload, signatures);
    hide Encode, Loads, SigsOf, Base64.Text, Base64.Bytes;
    PrintedIsLoaded(j, o);
    Base64.DecodesWhatWasEncoded(payload);
  }

  lemma SigEntryReadsBack(payload: seq<Byte>, private: seq<Byte>, o: Outside, signer: Signer)
    ensures SigsOf([SigEntry(payload, private, o, signer)])
         == Some([Sig(Str(Plain(o.keyId(signer.publicOf(private)))), signer.sign(private, SigningMessage(payload)))])
  {
    var e := SigEntry(payload, private, o, signer);
    Base64.DecodesWhatWasEncoded(signer.sign(private, SigningMessage(payload)));
    hide Base64.Text, Base64.Bytes, SigningMessage;
    assert [e][1..] == [] && SigsOf([e][1..]) == Some([]);
    var sig := Sig(Str(Plain(o.keyId(signer.publicOf(private)))), signer.sign(private, SigningMessage(payload)));
    assert SigOf(e) == Some(sig) && [sig] + [] == [sig];
  }

  /** Whatever well-formed signatures surround the publisher's -- the overlap of a key rotation -- the
      client gets the payload as soon as its root holds the signer's key. The one thing that must not
      stand BEFORE it is a signature whose identifier is a list or an object. */
  lemma SignedIsVerified(payload: seq<Byte>, private: seq<Byte>, before: seq<Json>, after: seq<Json>,
                         keys: seq<Key>, o: Outside, signer: Signer)
    requires PrintsBack(o) && Honest(o, signer) && |private| == 32
    requires PublicOf(keys, Str(Plain(o.keyId(signer.publicOf(private))))) == Some(signer.publicOf(private))
    requires SigsOf(before).Some? && SigsOf(after).Some?
    requires forall s :: s in SigsOf(before).value ==> Hashable(s.keyId)
    ensures var raw := Encode(o.print_(EnvelopeOf(payload, before + [SigEntry(payload, private, o, signer)] + after)));
            ParseEnvelope(raw, o).Ok? && ParseEnvelope(raw, o).value.payload == payload
            && Verified(ParseEnvelope(raw, o).value, keys, o) == Ok(payload)
  {
    var entry := SigEntry(payload, private, o, signer);
    SigEntryReadsBack(payload, private, o, signer);
    SigsConcat(before, [entry]);
    SigsConcat(before + [entry], after);
    EnvelopeReadsBack(payload, before + [entry] + after, o);
    hide Encode, Decode, SigsOf, EnvelopeOf, SigEntry, SigningMessage, PublicOf, Scan, ParseEnvelope;
    var mine := Sig(Str(Plain(o.keyId(signer.publicOf(private)))), signer.sign(private, SigningMessage(payload)));
    var sigs := SigsOf(before).value + [mine] + SigsOf(after).value;
    var i := |SigsOf(before).value|;
    assert sigs[i] == mine;
    assert Vouches(mine, payload, keys, o);
    forall k | 0 <= k <= i ensures Hashable(sigs[k].keyId) {
      if k < i {
        assert sigs[k] == SigsOf(before).value[k] && sigs[k] in SigsOf(before).value;
      }
    }
    ScanAccepts(sigs, i, payload, keys, o, false, []);
    assert keys != [] by {
      EmptyRootKnowsNothing(keys, Str(Plain(o.keyId(signer.publicOf(private)))));
    }
  }

  lemma EmptyRootKnowsNothing(keys: seq<Key>, id: Json)
    requires PublicOf(keys, id).Some?
    ensures keys != []
  {
  }

  /** And that one thing is enough: ahead of a perfectly good signature, a list or an object turns the poll into
      an `internal` failure, read as "unreachable"; anything else that names no key is passed over. */
  lemma AnUnhashableSignatureHidesTheRest(payload: seq<Byte>, first: Sig, rest: seq<Sig>, keys: seq<Key>, o: Outside)
    requires keys != []
    ensures var verified := Verified(Envelope(payload, [first] + rest), keys, o);
            if first.keyId.Arr? || first.keyId.Obj? then verified == Err(Internal)
            else (forall k :: k in keys ==> Str(Plain(k.id)) != first.keyId) ==>
                   (verified.Ok? <==> Verified(Envelope(payload, rest), keys, o).Ok?)
  {
    PublicIsNamed(keys, first.keyId);
    assert ([first] + rest)[1..] == rest && [] + [first.keyId] == [first.keyId];
    SameAcceptance(rest, payload, keys, o, false, [first.keyId], []);
  }

  lemma {:induction false} SameAcceptance(sigs: seq<Sig>, payload: seq<Byte>, keys: seq<Key>, o: Outside,
                                          invalid: bool, unknown: seq<Json>, before: seq<Json>)
    ensures Scan(sigs, payload, keys, o, invalid, unknown).Ok? <==> Scan(sigs, payload, keys, o, invalid, before).Ok?
  {
    hide PublicOf, Vouches, Hashable;
    if sigs != [] {
      var s := sigs[0];
      SameAcceptance(sigs[1..], payload, keys, o, true, unknown, before);
      SameAcceptance(sigs[1..], payload, keys, o, invalid, unknown + [s.keyId], before + [s.keyId]);
    }
  }

  // --- the whole chain --------------------------------------------------------------------------------

  /** The body the publisher serves for a wheel, and the keys file its clients carry. */
  function Publication(w: Wheel, lineage: seq<string>, publishedAt: string, private: seq<Byte>, o: Outside,
                       signer: Signer): Result<seq<Byte>, Refusal>
  {
    match BuildAnnounce(w, lineage, publishedAt)
    case Err(refusal) => Err(refusal)
    case Ok(announce) =>
      match SignEnvelope(Encode(o.print_(announce)), private, o, signer)
      case Err(refusal) => Err(refusal)
      case Ok(envelope) => Ok(Encode(o.print_(envelope)))
  }

  function KeysOf(private: seq<Byte>, o: Outside, signer: Signer): KeysFile {
    Present(Encode(TrustRootDocument(signer.publicOf(private), o)))
  }

  lemma PublicationIsExamined(w: Wheel, lineage: seq<string>, publishedAt: string, private: seq<Byte>,
                              o: Outside, signer: Signer)
    requires PrintsBack(o) && Honest(o, signer) && w.digest != ""
    requires Publication(w, lineage, publishedAt, private, o, signer).Ok?
    ensures var public := signer.publicOf(private);
            Examined(Publication(w, lineage, publishedAt, private, o, signer).value, [Key(o.keyId(public), public)], o)
            == if w.version != "" && w.sha.Str? then Ok(Announced(w, lineage)) else Err(Malformed)
  {
    var payload := Encode(o.print_(BuildAnnounce(w, lineage, publishedAt).value));
    var public := signer.publicOf(private);
    var keys := [Key(o.keyId(public), public)];
    var entry := SigEntry(payload, private, o, signer);
    assert PublicOf(keys, Str(Plain(o.keyId(public)))) == Some(public);
    assert [] + [entry] + [] == [entry];
    SignedIsVerified(payload, private, [], [], keys, o, signer);
    AnnounceReadsBack(w, lineage, publishedAt, o);
    AnnounceFaultIsMalformed(payload, o);
    hide ParseEnvelope, Verified, ParseAnnounce, BuildAnnounce, Encode, EnvelopeOf, SigEntry, Announced;
  }

  /** PUBLISHED IS ANNOUNCED. The wheel is announced, the announce printed, signed and served; the client
      carries the trust root derived from the signer's public key. The poll then succeeds, with exactly
      the announce that was built, if and only if the wheel names a version and its stamp holds a string. */
  lemma PublishedIsAnnounced(w: Wheel, lineage: seq<string>, publishedAt: string, private: seq<Byte>,
                             o: Outside, signer: Signer, path: Text, write: Write, at: nat)
    requires PrintsBack(o) && Honest(o, signer) && w.digest != ""
    requires Publication(w, lineage, publishedAt, private, o, signer).Ok?
    requires |Publication(w, lineage, publishedAt, private, o, signer).value| <= MAX_BODY
    ensures var body := Publication(w, lineage, publishedAt, private, o, signer).value;
            Concluded(Poll(path, KeysOf(private, o, signer), Served(body), write, at), o)
            == if w.version != "" && w.sha.Str? then Some((Fine, Some(Announced(w, lineage))))
               else Some((Failed(Malformed, true), None))
  {
    TrustRootReadsBack(signer.publicOf(private), o);
    PublicationIsExamined(w, lineage, publishedAt, private, o, signer);
    hide Root, Examined, Publication, Encode, TrustRootDocument, Announced;
  }

  /** And the client is told what the publisher meant: `available` for a build of the lineage, up to date
      for the edition itself, an admission of ignorance for any other build. Unless the wheel carries a
      lone surrogate, which the publisher prints and the client cannot store: then, the state file being
      open, `refresh` raises instead. */
  lemma ClientIsToldWhatWasPublished(w: Wheel, lineage: seq<string>, publishedAt: string, private: seq<Byte>,
                                     o: Outside, signer: Signer, path: Text, before: Disk, write: Write, at: nat,
                                     build: string)
    requires PrintsBack(o) && Honest(o, signer) && w.digest != "" && w.version != "" && w.sha.Str? && build != ""
    requires Publication(w, lineage, publishedAt, private, o, signer).Ok?
    requires |Publication(w, lineage, publishedAt, private, o, signer).value| <= MAX_BODY
    ensures var body := Publication(w, lineage, publishedAt, private, o, signer).value;
            var told := Told(before, Poll(path, KeysOf(private, o, signer), Served(body), write, at), o);
            (told.None? <==> write != NoFile && !Clean(w))
            && (told.Some? ==>
                  var verdict := Judge(told.value, Some(build));
                  (verdict == Available <==> build in lineage) && (verdict == UpToDate <==> w.sha.t == Plain(build))
                  && (verdict == CannotSituate <==> build !in lineage && w.sha.t != Plain(build)))
  {
    hide Publication, Concluded, KeysOf, Clean, Texts;
    PublishedIsAnnounced(w, lineage, publishedAt, private, o, signer, path, write, at);
    if w.sha.t.Plain? {
      NotItsOwnAncestor(w, lineage, publishedAt, private, o, signer);
    }
    StringsBack(lineage);
  }

  lemma NotItsOwnAncestor(w: Wheel, lineage: seq<string>, publishedAt: string, private: seq<Byte>, o: Outside,
                          signer: Signer)
    requires Publication(w, lineage, publishedAt, private, o, signer).Ok? && w.sha.Str? && w.sha.t.Plain?
    ensures w.sha.t.s !in lineage
  {
    hide Encode, EnvelopeOf;
  }

  // --- what anyone can serve ----------------------------------------------------------------------------

  /** A body of one signature that signs nothing: any identifier, any bytes. */
  function Forged(payload: seq<Byte>, id: Json, sig: seq<Byte>, o: Outside): seq<Byte> {
    Encode(o.print_(EnvelopeOf(payload, [Obj(map["key_id" := id, "sig" := Str(Plain(Base64.Text(sig)))], false)])))
  }

  lemma ForgedReadsBack(payload: seq<Byte>, id: Json, sig: seq<Byte>, o: Outside)
    requires PrintsBack(o)
    ensures ParseEnvelope(Forged(payload, id, sig, o), o) == Ok(Envelope(payload, [Sig(id, sig)]))
  {
    var e := Obj(map["key_id" := id, "sig" := Str(Plain(Base64.Text(sig)))], false);
    EnvelopeReadsBack(payload, [e], o);
    Base64.DecodesWhatWasEncoded(sig);
    hide Base64.Text, Base64.Bytes, ParseEnvelope, Encode, EnvelopeOf;
    assert [e][1..] == [] && SigOf(e) == Some(Sig(id, sig)) && [Sig(id, sig)] + [] == [Sig(id, sig)];
    assert SigsOf([e][1..]) == Some([]);
  }

  /** One unknown identifier with a lone surrogate, and `refresh` raises, whatever the trust root and
      whatever was polled before. */
  lemma ALoneIdentifierRaises(polls: seq<Poll>, poll: Poll, points: Unpaired, payload: seq<Byte>, sig: seq<Byte>,
                              o: Outside)
    requires PrintsBack(o) && Root(poll.keys, o).Ok? && Root(poll.keys, o).value != [] && poll.write != NoFile
    requires poll.fetch == Served(Forged(payload, Str(Lone(points)), sig, o)) && |poll.fetch.body| <= MAX_BODY
    ensures Raises(Polled(Nothing, polls, o), poll, o)
  {
    hide Forged, ParseEnvelope, Root, Raises, Polled, Concluded, StrictText, PublicOf, AnnouncesUnstorable;
    ForgedReadsBack(payload, Str(Lone(points)), sig, o);
    RefreshRaisesExactly(polls, poll, o);
    var keys, env := Root(poll.keys, o).value, Envelope(payload, [Sig(Str(Lone(points)), sig)]);
    PublicIsNamed(keys, Str(Lone(points)));
    assert !Claims(env.sigs, keys) && env.sigs[0].keyId.t.Lone?;
    assert NamesALoneStranger(poll, o);
  }

  /** A keys file of one byte that no UTF-8 text holds, and `refresh` raises, without any network. */
  lemma AKeysFileRaises(disk: Disk, poll: Poll, o: Outside)
    requires poll.keys == Present([0xFF])
    ensures Raises(disk, poll, o)
  {
    assert StrictText([0xFF]).None?;
    OnlyKeysEscape(poll, o);
    hide Concluded;
  }

  /** An unreachable channel, whose URL -- a variable of the environment -- holds a byte that is not UTF-8,
      and `refresh` raises: nothing was served, and the keys are good. */
  lemma ALoneUrlRaises(polls: seq<Poll>, poll: Poll, points: Unpaired, o: Outside)
    requires Root(poll.keys, o).Ok? && Root(poll.keys, o).value != [] && poll.write != NoFile
    requires poll.fetch == Down(Lone(points))
    ensures Raises(Polled(Nothing, polls, o), poll, o)
  {
    hide Raises, Polled, Concluded, StrictText, Root, NamesALoneStranger, AnnouncesUnstorable;
    RefreshRaisesExactly(polls, poll, o);
  }

  /** The same with a keys file that cannot be read, under a path that is not UTF-8. */
  lemma ALonePathRaises(polls: seq<Poll>, poll: Poll, o: Outside)
    requires poll.keys.Locked? && poll.path.Lone? && poll.write != NoFile
    ensures Raises(Polled(Nothing, polls, o), poll, o)
  {
    hide Raises, Polled, Concluded, StrictText, NamesALoneStranger, AnnouncesUnstorable;
    RefreshRaisesExactly(polls, poll, o);
  }

  /** Anyone can do it: a body of one signature named by `null`, and the build that could be updated is
      still told so, where the same body named by an unknown string interrupts it. */
  lemma ANullIdentifierKeepsAvailable(disk: Disk, poll: Poll, payload: seq<Byte>, id: Json, sig: seq<Byte>,
                                      build: Option<string>, o: Outside)
    requires PrintsBack(o) && Root(poll.keys, o).Ok? && Root(poll.keys, o).value != []
    requires poll.fetch == Served(Forged(payload, id, sig, o)) && |poll.fetch.body| <= MAX_BODY
    requires id == Null || (id.Str? && id.t.Plain? && !Names(Root(poll.keys, o).value, id.t.s))
    requires Writable(ReadState(disk)) && Judge(View(ReadState(disk).success, Never), build) == Available
    ensures Told(disk, poll, o).Some?
    ensures Judge(Told(disk, poll, o).value, build) == if id == Null then Available else Unverified
  {
    hide Forged, ParseEnvelope, Root, Situate, Scan, Verified;
    ForgedReadsBack(payload, id, sig, o);
    var keys, env := Root(poll.keys, o).value, Envelope(payload, [Sig(id, sig)]);
    PublicIsNamed(keys, id);
    assert PublicOf(keys, id).None?;
    assert env.sigs[0].keyId == id;
    ScanRefuses(env, keys, o);
    OneOddIdentifierSoftensTheRefusal(disk, poll, env, keys, build, o);
  }

  // --- what the publisher refuses ---------------------------------------------------------------------------

  /** REFUSED BY THE PUBLISHER, exactly, in order: a build stamp without a digest; more ancestors than the
      client reads; a digest that is its own ancestor. Everything else is announced, as it is. */
  lemma BuildRefusesExactly(w: Wheel, lineage: seq<string>, publishedAt: string)
    ensures var r := BuildAnnounce(w, lineage, publishedAt);
            var empty := w.sha in {Null, Bool(false), Num(0), Str(Plain("")), Arr([]), Obj(map[], false)};
            var selfish := exists i :: 0 <= i < |lineage| && w.sha == Str(Plain(lineage[i]));
            (r == Err(NoSha) <==> empty)
            && (r == Err(LineageTooLong) <==> !empty && |lineage| > 50)
            && (r == Err(InItsOwnLineage) <==> !empty && |lineage| <= 50 && selfish)
            && (r.Err? <==> empty || |lineage| > 50 || selfish)
            && (r.Ok? ==> Get(r.value, "published_at") == Some(Str(Plain(publishedAt)))
                          && Get(r.value, "edition") == Some(Edition(w)))
  {
    hide Strs, Edition;
    if i :| 0 <= i < |lineage| && w.sha == Str(Plain(lineage[i])) {
      assert lineage[i] in lineage;
    }
  }

  /** What the edition of an announce copies from the wheel, field by field. */
  lemma EditionCopiesTheWheel(w: Wheel)
    ensures Get(Edition(w), "committed_at") == Some(w.committedAt) && Get(Edition(w), "maps") == Some(w.maps)
    ensures Get(WheelEntry(w), "name") == Some(Str(w.name)) && Get(WheelEntry(w), "size") == Some(Num(w.size))
  {
  }

  /** A signature is only made with a key of 32 bytes, and what is made can be written. */
  lemma SignRefusesExactly(payload: seq<Byte>, private: seq<Byte>, o: Outside, signer: Signer)
    ensures SignEnvelope(payload, private, o, signer) == Err(NotAPrivateKey) <==> |private| != 32
    ensures |private| == 32 ==> Encodable(SignEnvelope(payload, private, o, signer).value)
  {
    if |private| == 32 {
      var entry := SigEntry(payload, private, o, signer);
      assert Encodable(entry);
      var envelope := EnvelopeOf(payload, [entry]);
      assert Encodable(envelope.fields["signatures"]);
      assert Encodable(envelope.fields["schema"]) && Encodable(envelope.fields["payload"]);
      assert SignEnvelope(payload, private, o, signer).value == envelope;
      hide SigEntry;
      assert Encodable(envelope);
    }
  }
}
