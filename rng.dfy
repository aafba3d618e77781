/**
 * The <backend> of a random number generator device (domain.go:1678-1713):
 * a two-member union whose member is chosen by the `model` attribute.
 */
module Rng {
  import opened Results
  import opened Xml

  /** The two backends, in the encoder's priority order. */
  datatype BackendKind = Random | EGD

  /** The `model` attribute that stands for each backend. */
  function ModelName(k: BackendKind): string {
    match k
    case Random => "random"
    case EGD => "egd"
  }

  /** The decoder's if/else chain on `model`; other strings select nothing. */
  function KindOf(model: string): (r: Option<BackendKind>)
    ensures forall k :: r == Some(k) <==> ModelName(k) == model
  {
    if model == "random" then Some(Random)
    else if model == "egd" then Some(EGD)
    else None
  }

  /** DomainRNGBackend; the fields of each backend are left to the engine. */
  datatype RNGBackend = RNGBackend(random: Option<Body>, egd: Option<Body>)

  const EmptyBackend := RNGBackend(None, None)

  function Member(b: RNGBackend, k: BackendKind): Option<Body> {
    match k
    case Random => b.random
    case EGD => b.egd
  }

  /** `b` with backend `k` replaced by `v` and the other kept. */
  function SetMember(b: RNGBackend, k: BackendKind, v: Option<Body>): (r: RNGBackend)
    ensures Member(r, k) == v && forall j :: j != k ==> Member(r, j) == Member(b, j)
  {
    match k
    case Random => b.(random := v)
    case EGD => b.(egd := v)
  }

  /** The encoder's choice: Random wins over EGD. */
  function FirstKind(b: RNGBackend): (r: Option<BackendKind>)
    ensures r.None? ==> forall k :: Member(b, k).None?
    ensures r.Some? ==> Member(b, r.value).Some?
    ensures r == Some(EGD) ==> b.random.None?
  {
    if b.random.Some? then Some(Random)
    else if b.egd.Some? then Some(EGD)
    else None
  }

  /**
   * DomainRNGBackend.MarshalXML: the start element's attributes, which gain
   * the `model` of the chosen backend, and the backend the engine then
   * encodes; nothing at all is written when neither backend is set.
   */
  function MarshalBackend(b: RNGBackend, start: seq<Attr>): (r: Option<(seq<Attr>, Body)>)
    ensures r.None? <==> FirstKind(b).None?
    ensures r.Some? ==> var k := FirstKind(b).value;
      r.value.0 == start + [Attr("model", ModelName(k))] && Member(b, k) == Some(r.value.1)
  {
    match FirstKind(b)
    case None => None
    case Some(k) => Some((start + [Attr("model", ModelName(k))], Member(b, k).value))
  }

  /**
   * DomainRNGBackend.UnmarshalXML into the receiver `from`: a known `model`
   * allocates that backend and has the engine decode the element into it,
   * keeping the other backend of the receiver; a missing or unknown model
   * leaves the receiver as it was. `decodeElement(k)` is the engine's
   * DecodeElement into a fresh backend of kind `k`.
   */
  function DecodeBackend(from: RNGBackend, attrs: seq<Attr>, decodeElement: BackendKind -> Result<Body>): (r: Result<RNGBackend>)
    ensures Lookup(attrs, "model").None? ==> r == Ok(from)
    ensures Lookup(attrs, "model").Some? && KindOf(Lookup(attrs, "model").value).None? ==> r == Ok(from)
    ensures Lookup(attrs, "model").Some? && KindOf(Lookup(attrs, "model").value).Some? ==>
      var k := KindOf(Lookup(attrs, "model").value).value;
      && (decodeElement(k).Err? ==> r == Err(decodeElement(k).error))
      && (decodeElement(k).Ok? ==> r == Ok(SetMember(from, k, Some(decodeElement(k).value))))
  {
    match Lookup(attrs, "model")
    case None => Ok(from)
    case Some(model) =>
      match KindOf(model)
      case None => Ok(from)
      case Some(k) =>
        var body :- decodeElement(k);
        Ok(SetMember(from, k, Some(body)))
  }

  /**
   * The decoder as written: every branch reads the element to its end tag
   * (by DecodeElement or d.Skip()) except the early return for a missing
   * `model`.
   */
  function BackendOutcomeAsWritten(from: RNGBackend, attrs: seq<Attr>, decodeElement: BackendKind -> Result<Body>): (o: Outcome<RNGBackend>)
    ensures o.result == DecodeBackend(from, attrs, decodeElement)
    ensures o.consumed <==> Lookup(attrs, "model").Some?
  {
    Outcome(DecodeBackend(from, attrs, decodeElement), Lookup(attrs, "model").Some?)
  }

  /** The decoder with d.Skip() before the early return too: every branch consumes the element. */
  function BackendOutcome(from: RNGBackend, attrs: seq<Attr>, decodeElement: BackendKind -> Result<Body>): (o: Outcome<RNGBackend>)
    ensures o.result == DecodeBackend(from, attrs, decodeElement) && o.consumed
  {
    Outcome(DecodeBackend(from, attrs, decodeElement), true)
  }

  /** As written, a <backend> without `model` makes the engine fail instead of being ignored. */
  lemma MissingModelRejected(from: RNGBackend, decodeElement: BackendKind -> Result<Body>)
    ensures AfterHook("backend", BackendOutcomeAsWritten(from, [Attr("type", "tcp")], decodeElement))
      == Err(NotConsumed("backend"))
  {
    assert Lookup([Attr("type", "tcp")], "model").None?;
  }

  /** With the element skipped, a <backend> without `model` leaves the receiver as it was, as an unknown model does. */
  lemma MissingModelIgnored(from: RNGBackend, attrs: seq<Attr>, decodeElement: BackendKind -> Result<Body>)
    requires Lookup(attrs, "model").None? || KindOf(Lookup(attrs, "model").value).None?
    ensures AfterHook("backend", BackendOutcome(from, attrs, decodeElement)) == Ok(from)
  {
  }

  /**
   * Round trip: the `model` the encoder writes selects, on decoding into an
   * empty receiver, the backend the encoder wrote and nothing else; if the
   * engine reads back the body it wrote, that backend comes back unchanged.
   * The element is consumed on this path. `extra` stands for the
   * attributes the engine appends for the backend's own fields.
   */
  lemma BackendRoundTrip(b: RNGBackend, start: seq<Attr>, extra: seq<Attr>, decodeElement: BackendKind -> Result<Body>)
    requires FirstKind(b).Some?
    requires Lookup(start, "model").None?
    requires decodeElement(FirstKind(b).value) == Ok(Member(b, FirstKind(b).value).value)
    ensures MarshalBackend(b, start).Some?
    ensures var attrs := MarshalBackend(b, start).value.0 + extra;
      var k := FirstKind(b).value;
      && AfterHook("backend", BackendOutcomeAsWritten(EmptyBackend, attrs, decodeElement))
           == Ok(SetMember(EmptyBackend, k, Member(b, k)))
  {
    var k := FirstKind(b).value;
    var attrs := start + [Attr("model", ModelName(k))];
    LookupAppend(start, [Attr("model", ModelName(k))], "model");
    LookupAppend(attrs, extra, "model");
    assert Lookup(attrs + extra, "model") == Some(ModelName(k));
  }

  /** A backend with exactly one member set survives the round trip whole. */
  lemma BackendRoundTripOnly(b: RNGBackend, k: BackendKind, start: seq<Attr>, extra: seq<Attr>, decodeElement: BackendKind -> Result<Body>)
    requires Member(b, k).Some? && forall j :: j != k ==> Member(b, j).None?
    requires Lookup(start, "model").None?
    requires decodeElement(k) == Ok(Member(b, k).value)
    ensures MarshalBackend(b, start).Some?
    ensures AfterHook("backend", BackendOutcomeAsWritten(EmptyBackend, MarshalBackend(b, start).value.0 + extra, decodeElement)) == Ok(b)
  {
    assert FirstKind(b) == Some(k);
    BackendRoundTrip(b, start, extra, decodeElement);
    var r := SetMember(EmptyBackend, k, Member(b, k));
    assert Member(r, Random) == Member(b, Random) && Member(r, EGD) == Member(b, EGD);
  }

  /** Decoding into an empty receiver never yields both backends. */
  lemma DecodeAtMostOne(attrs: seq<Attr>, decodeElement: BackendKind -> Result<Body>)
    requires DecodeBackend(EmptyBackend, attrs, decodeElement).Ok?
    ensures var b := DecodeBackend(EmptyBackend, attrs, decodeElement).value;
      b.random.None? || b.egd.None?
  {
  }
}
