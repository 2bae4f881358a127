/** The outbox codec registry: one current codec per event class, older readers beside it, two indexes that agree. */
module EventCodecs {
  import opened Common

  /** A live event class and the version its events carry. */
  datatype EventClass = EventClass(name: string, version: int)

  datatype Metadata = Metadata(eventId: int, occurredAt: Time, recordedAt: Time)

  /** An event: its class, its metadata and its own fields. */
  datatype Event = Event(cls: EventClass, version: int, metadata: Metadata, fields: map<string, string>)

  /** What an encoder hands over; only a JSON object may be stored. */
  datatype Payload = JsonObject(fields: map<string, string>) | OtherJson

  datatype CodecError =
    | TypeMismatch
    | VersionMismatch
    | DuplicateCodec
    | ContractBroken
    | CodecNotFound
    | InvalidIdentity
    | InvalidPayload
    | DecoderRejects

  /** A reader of one persisted identity. */
  datatype Decoder = Decoder(cls: EventClass, eventType: string, version: int,
                             decode: (Payload, Metadata) -> Result<Event, CodecError>)

  datatype Codec = Codec(reader: Decoder, encode: Event -> Result<Payload, CodecError>)

  // ----- adapters

  /** A registered reader; the encoder is there for current codecs only. */
  datatype Adapter = Adapter(decoder: Decoder, codec: Option<Codec>) {
    function Identity(): (string, int) {
      (decoder.eventType, decoder.version)
    }

    /** Decodes and checks that the reader built the right class and kept the metadata. */
    function Decode(payload: Payload, metadata: Metadata): (r: Result<Event, CodecError>)
      ensures r.Ok? ==> r.value.cls == decoder.cls && r.value.metadata == metadata
    {
      if payload.OtherJson? then Err(InvalidPayload)
      else
        var decoded := decoder.decode(payload, metadata);
        if decoded.Err? then decoded
        else if decoded.value.cls != decoder.cls then Err(TypeMismatch)
        else if decoded.value.metadata != metadata then Err(ContractBroken)
        else decoded
    }

    /** Encodes and, before handing the payload over, decodes it again. */
    function Encode(event: Event): Result<Payload, CodecError>
      requires codec.Some?
    {
      if event.cls != decoder.cls then Err(TypeMismatch)
      else if event.version != decoder.version then Err(VersionMismatch)
      else
        var encoded := codec.value.encode(event);
        if encoded.Err? then encoded
        else if encoded.value.OtherJson? then Err(InvalidPayload)
        else
          var decoded := Decode(encoded.value, event.metadata);
          if decoded.Err? then Err(decoded.error)
          else if !SameEvent(decoded.value, event) then Err(ContractBroken)
          else encoded
    }
  }

  /** Equality of events as their classes define it: metadata does not count. */
  predicate SameEvent(a: Event, b: Event) {
    a.cls == b.cls && a.version == b.version && a.fields == b.fields
  }

  /** The characters that are stripped from the ends of a text. */
  predicate Whitespace(c: char) {
    var code := c as int;
    || 0x09 <= code <= 0x0D || 0x1C <= code <= 0x20 || code == 0x85 || code == 0xA0 || code == 0x1680
    || 0x2000 <= code <= 0x200A || code == 0x2028 || code == 0x2029 || code == 0x202F || code == 0x205F || code == 0x3000
  }

  /** A persisted type name: not blank, not padded. */
  predicate CanonicalName(name: string) {
    name != "" && !Whitespace(name[0]) && !Whitespace(name[|name| - 1])
  }

  /** A text without the whitespace at its ends. */
  function Stripped(text: string): string {
    if text == "" then ""
    else if Whitespace(text[0]) then Stripped(text[1..])
    else if Whitespace(text[|text| - 1]) then Stripped(text[..|text| - 1])
    else text
  }

  /** A name is canonical exactly when something is left of it and stripping it changes nothing. */
  lemma CanonicalIff(name: string)
    ensures CanonicalName(name) <==> Stripped(name) == name != ""
  {
    StrippedIsShorter(name);
    if name != "" {
      StrippedIsShorter(name[1..]);
      StrippedIsShorter(name[..|name| - 1]);
    }
  }

  lemma {:induction false} StrippedIsShorter(text: string)
    ensures |Stripped(text)| <= |text|
  {
    if text != "" {
      StrippedIsShorter(text[1..]);
      StrippedIsShorter(text[..|text| - 1]);
    }
  }

  /** Wraps a reader for a class, or says why it cannot be. */
  function AdaptDecoder(cls: EventClass, decoder: Decoder): Result<Adapter, CodecError> {
    if decoder.cls != cls then Err(TypeMismatch)
    else if !CanonicalName(decoder.eventType) || decoder.version < 1 || cls.version < 1 then Err(InvalidIdentity)
    else Ok(Adapter(decoder, None))
  }

  /** Wraps a current codec: its version is that of its class. */
  function AdaptCodec(cls: EventClass, codec: Codec): Result<Adapter, CodecError> {
    var adapted := AdaptDecoder(cls, codec.reader);
    if adapted.Err? then adapted
    else if codec.reader.version != cls.version then Err(VersionMismatch)
    else Ok(Adapter(codec.reader, Some(codec)))
  }

  // ----- the two indexes

  datatype Indexes = Indexes(byClass: map<EventClass, Adapter>, byIdentity: map<(string, int), Adapter>)

  const EMPTY := Indexes(map[], map[])

  /** The indexes agree: every current codec is found by its class and by its identity, every other entry is a
      reader of a version older than its class's, and each entry stands under its own identity. */
  ghost predicate Coherent(ix: Indexes) {
    && (forall cls <- ix.byClass :: CurrentEntry(ix, cls))
    && (forall id <- ix.byIdentity :: IdentityEntry(ix, id))
  }

  ghost predicate CurrentEntry(ix: Indexes, cls: EventClass)
    requires cls in ix.byClass
  {
    var a := ix.byClass[cls];
    a.codec.Some? && a.codec.value.reader == a.decoder && a.decoder.cls == cls && a.decoder.version == cls.version
    && a.Identity() in ix.byIdentity && ix.byIdentity[a.Identity()] == a
  }

  ghost predicate IdentityEntry(ix: Indexes, id: (string, int))
    requires id in ix.byIdentity
  {
    var a := ix.byIdentity[id];
    && a.Identity() == id && CanonicalName(id.0) && id.1 >= 1
    && (if a.codec.Some? then a.decoder.cls in ix.byClass && ix.byClass[a.decoder.cls] == a
        else a.decoder.version < a.decoder.cls.version)
  }

  datatype Registration = Current(cls: EventClass, codec: Codec) | Historical(cls: EventClass, decoder: Decoder)

  /** Why a registration is refused, if it is. */
  function Refusal(ix: Indexes, q: Registration): Option<CodecError> {
    match q
    case Current(cls, codec) =>
      var adapted := AdaptCodec(cls, codec);
      if adapted.Err? then Some(adapted.error)
      else if cls in ix.byClass || adapted.value.Identity() in ix.byIdentity then Some(DuplicateCodec)
      else None
    case Historical(cls, decoder) =>
      var adapted := AdaptDecoder(cls, decoder);
      if adapted.Err? then Some(adapted.error)
      else if decoder.version >= cls.version then Some(VersionMismatch)
      else if adapted.value.Identity() in ix.byIdentity then Some(DuplicateCodec)
      else None
  }

  /** The indexes after a registration; a refused one changes neither. */
  function Registered(ix: Indexes, q: Registration): Indexes {
    if Refusal(ix, q).Some? then ix
    else
      match q
      case Current(cls, codec) =>
        var a := AdaptCodec(cls, codec).value;
        Indexes(ix.byClass[cls := a], ix.byIdentity[a.Identity() := a])
      case Historical(cls, decoder) =>
        var a := AdaptDecoder(cls, decoder).value;
        ix.(byIdentity := ix.byIdentity[a.Identity() := a])
  }

  function AllRegistered(qs: seq<Registration>): Indexes {
    if qs == [] then EMPTY else Registered(AllRegistered(qs[..|qs| - 1]), qs[|qs| - 1])
  }

  // ----- laws

  lemma RegistrationKeepsCoherence(ix: Indexes, q: Registration)
    requires Coherent(ix)
    ensures Coherent(Registered(ix, q))
  {
    if Refusal(ix, q).None? {
      var v := Registered(ix, q);
      forall cls <- v.byClass ensures CurrentEntry(v, cls) {
        if cls in ix.byClass && v.byClass[cls] == ix.byClass[cls] {
          assert CurrentEntry(ix, cls);
        }
      }
      forall id <- v.byIdentity ensures IdentityEntry(v, id) {
        if id in ix.byIdentity {
          assert IdentityEntry(ix, id);
        }
      }
    }
  }

  /** After any sequence of registrations, refused ones included, the two indexes agree. */
  lemma {:induction false} RegistryStaysCoherent(qs: seq<Registration>)
    ensures Coherent(AllRegistered(qs))
  {
    if qs != [] {
      RegistryStaysCoherent(qs[..|qs| - 1]);
      RegistrationKeepsCoherence(AllRegistered(qs[..|qs| - 1]), qs[|qs| - 1]);
    }
  }

  /** A later registration never takes an entry of either index away or replaces it. */
  lemma {:induction false} EntriesStay(qs: seq<Registration>, n: nat, id: (string, int), cls: EventClass)
    requires n <= |qs|
    ensures id in AllRegistered(qs[..n]).byIdentity ==>
      id in AllRegistered(qs).byIdentity && AllRegistered(qs).byIdentity[id] == AllRegistered(qs[..n]).byIdentity[id]
    ensures cls in AllRegistered(qs[..n]).byClass ==>
      cls in AllRegistered(qs).byClass && AllRegistered(qs).byClass[cls] == AllRegistered(qs[..n]).byClass[cls]
    decreases |qs|
  {
    if n == |qs| {
      WholeSlice(qs);
    } else {
      assert qs[..|qs| - 1][..n] == qs[..n];
      EntriesStay(qs[..|qs| - 1], n, id, cls);
    }
  }

  /** A current codec is taken exactly when its reader is for the class, its name is canonical, its version is positive
      and that of the class, and neither the class nor the identity is taken; it then stands in both indexes. */
  lemma CurrentTakenIff(ix: Indexes, cls: EventClass, codec: Codec)
    ensures var d := codec.reader; var entry := Adapter(d, Some(codec));
      Registered(ix, Current(cls, codec)) ==
        if d.cls == cls && CanonicalName(d.eventType) && 1 <= d.version == cls.version
           && cls !in ix.byClass && (d.eventType, d.version) !in ix.byIdentity
        then Indexes(ix.byClass[cls := entry], ix.byIdentity[(d.eventType, d.version) := entry])
        else ix
  {
  }

  /** A historical reader is taken exactly when it is for the class, its name is canonical, its version is positive and
      older than that of the class, and its identity is not taken; it then stands in the identity index alone. */
  lemma HistoricalTakenIff(ix: Indexes, cls: EventClass, d: Decoder)
    ensures Registered(ix, Historical(cls, d)) ==
      if d.cls == cls && CanonicalName(d.eventType) && 1 <= d.version < cls.version && (d.eventType, d.version) !in ix.byIdentity
      then Indexes(ix.byClass, ix.byIdentity[(d.eventType, d.version) := Adapter(d, None)])
      else ix
  {
  }

  /** Decoding lets through exactly what the reader makes of a JSON object, of the right class and with the metadata kept. */
  lemma DecodesIff(a: Adapter, payload: Payload, metadata: Metadata, event: Event)
    ensures a.Decode(payload, metadata) == Ok(event)
       <==> payload.JsonObject? && a.decoder.decode(payload, metadata) == Ok(event)
            && event.cls == a.decoder.cls && event.metadata == metadata
  {
  }

  /** Encoding lets through exactly a JSON object from which the reader makes the very same event again. */
  lemma EncodesIff(a: Adapter, event: Event, payload: Payload)
    requires a.codec.Some?
    ensures a.Encode(event) == Ok(payload)
       <==> event.cls == a.decoder.cls && event.version == a.decoder.version && payload.JsonObject?
            && a.codec.value.encode(event) == Ok(payload) && a.decoder.decode(payload, event.metadata) == Ok(event)
  {
  }

  /** What was encoded can be read back: after any registrations, a payload the current codec of an event's class
      lets through is decoded to the very same event by the reader found under its persisted identity. */
  lemma EncodedEventsReadBack(qs: seq<Registration>, later: seq<Registration>, event: Event)
    requires event.cls in AllRegistered(qs).byClass
    requires var a := AllRegistered(qs).byClass[event.cls]; a.codec.Some? && a.Encode(event).Ok?
    ensures var a := AllRegistered(qs).byClass[event.cls]; var id := (a.decoder.eventType, event.version);
      && id in AllRegistered(qs + later).byIdentity
      && AllRegistered(qs + later).byIdentity[id].Decode(a.Encode(event).value, event.metadata) == Ok(event)
  {
    RegistryStaysCoherent(qs);
    assert CurrentEntry(AllRegistered(qs), event.cls);
    var a := AllRegistered(qs).byClass[event.cls];
    assert (qs + later)[..|qs|] == qs;
    EntriesStay(qs + later, |qs|, a.Identity(), event.cls);
  }

  // ----- the registry

  class CodecRegistry {
    var codecsByEventClass: map<EventClass, Adapter>
    var codecsByIdentity: map<(string, int), Adapter>

    function State(): Indexes
      reads this
    {
      Indexes(codecsByEventClass, codecsByIdentity)
    }

    ghost predicate Valid()
      reads this
    {
      Coherent(State())
    }

    constructor ()
      ensures Valid() && State() == EMPTY
    {
      codecsByEventClass, codecsByIdentity := map[], map[];
    }

    /** Registers the current codec of a class. Both indexes are checked before either is written. */
    method Register(cls: EventClass, codec: Codec) returns (refusal: Option<CodecError>)
      requires Valid()
      modifies this
      ensures Valid()
      ensures refusal == Refusal(old(State()), Current(cls, codec))
      ensures State() == Registered(old(State()), Current(cls, codec))
      ensures var d := codec.reader;
        && (refusal == Some(TypeMismatch) <==> d.cls != cls)
        && (refusal == Some(InvalidIdentity) <==> d.cls == cls && !(CanonicalName(d.eventType) && d.version >= 1 && cls.version >= 1))
        && (refusal == Some(VersionMismatch) <==>
              d.cls == cls && CanonicalName(d.eventType) && d.version >= 1 && cls.version >= 1 && d.version != cls.version)
        && (refusal == Some(DuplicateCodec) <==>
              d.cls == cls && CanonicalName(d.eventType) && 1 <= d.version == cls.version
              && (cls in old(codecsByEventClass) || (d.eventType, d.version) in old(codecsByIdentity)))
        && (refusal.None? <==>
              d.cls == cls && CanonicalName(d.eventType) && 1 <= d.version == cls.version
              && cls !in old(codecsByEventClass) && (d.eventType, d.version) !in old(codecsByIdentity))
    {
      RegistrationKeepsCoherence(State(), Current(cls, codec));
      var adapted := AdaptCodec(cls, codec);
      if adapted.Err? {
        return Some(adapted.error);
      }
      var identity := adapted.value.Identity();
      if cls in codecsByEventClass {
        return Some(DuplicateCodec);
      }
      if identity in codecsByIdentity {
        return Some(DuplicateCodec);
      }
      codecsByEventClass := codecsByEventClass[cls := adapted.value];
      codecsByIdentity := codecsByIdentity[identity := adapted.value];
      return None;
    }

    /** Registers a reader of an older version; the current encoder is not touched. */
    method RegisterDecoder(cls: EventClass, decoder: Decoder) returns (refusal: Option<CodecError>)
      requires Valid()
      modifies this`codecsByIdentity
      ensures Valid()
      ensures refusal == Refusal(old(State()), Historical(cls, decoder))
      ensures State() == Registered(old(State()), Historical(cls, decoder))
      ensures var d := decoder;
        && (refusal == Some(TypeMismatch) <==> d.cls != cls)
        && (refusal == Some(InvalidIdentity) <==> d.cls == cls && !(CanonicalName(d.eventType) && d.version >= 1 && cls.version >= 1))
        && (refusal == Some(VersionMismatch) <==>
              d.cls == cls && CanonicalName(d.eventType) && d.version >= 1 && cls.version >= 1 && d.version >= cls.version)
        && (refusal == Some(DuplicateCodec) <==>
              d.cls == cls && CanonicalName(d.eventType) && 1 <= d.version < cls.version
              && (d.eventType, d.version) in old(codecsByIdentity))
        && (refusal.None? <==>
              d.cls == cls && CanonicalName(d.eventType) && 1 <= d.version < cls.version
              && (d.eventType, d.version) !in old(codecsByIdentity))
    {
      RegistrationKeepsCoherence(State(), Historical(cls, decoder));
      var adapted := AdaptDecoder(cls, decoder);
      if adapted.Err? {
        return Some(adapted.error);
      }
      if adapted.value.decoder.version >= cls.version {
        return Some(VersionMismatch);
      }
      var identity := adapted.value.Identity();
      if identity in codecsByIdentity {
        return Some(DuplicateCodec);
      }
      codecsByIdentity := codecsByIdentity[identity := adapted.value];
      return None;
    }

    /** The current codec of the event's own class. */
    function ForEvent(event: Event): (r: Result<Adapter, CodecError>)
      requires Valid()
      reads this
      ensures r.Ok? ==> r.value.codec.Some? && r.value.decoder.cls == event.cls && r.value.decoder.version == event.cls.version
      ensures r.Err? ==> r.error == CodecNotFound && event.cls !in State().byClass
    {
      if event.cls in codecsByEventClass then
        assert CurrentEntry(State(), event.cls);
        Ok(codecsByEventClass[event.cls])
      else Err(CodecNotFound)
    }

    /** The reader of exactly this identity, never one of another version. */
    function ForIdentity(eventType: string, version: int): (r: Result<Adapter, CodecError>)
      requires Valid()
      reads this
      ensures r.Ok? ==> r.value.Identity() == (eventType, version) && version <= r.value.decoder.cls.version
      ensures r == Err(InvalidIdentity) <==> !CanonicalName(eventType) || version < 1
      ensures r == Err(CodecNotFound) <==> CanonicalName(eventType) && version >= 1 && (eventType, version) !in State().byIdentity
      ensures r.Ok? <==> r != Err(InvalidIdentity) && r != Err(CodecNotFound)
      ensures r.Ok? ==> r.value == State().byIdentity[(eventType, version)]
    {
      if !CanonicalName(eventType) || version < 1 then Err(InvalidIdentity)
      else if (eventType, version) in codecsByIdentity then
        assert IdentityEntry(State(), (eventType, version));
        Ok(codecsByIdentity[(eventType, version)])
      else Err(CodecNotFound)
    }
  }
}
