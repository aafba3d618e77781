/**
 * The <source> of a SCSI host device (domain.go:1727-1757): a host adapter
 * when the element has no `protocol`, an iSCSI target when it says
 * protocol="iscsi".
 */
module ScsiSource {
  import opened Results
  import opened Xml

  datatype SourceKind = Host | ISCSI

  /** DomainHostdevSubsysSCSISource; the fields of each member are left to the engine. */
  datatype SCSISource = SCSISource(host: Option<Body>, iscsi: Option<Body>)

  const EmptySource := SCSISource(None, None)

  /**
   * DomainHostdevSubsysSCSISource.MarshalXML: the start element's
   * attributes, the member chosen (the host wins) and its payload; the host
   * adds no attribute, the iSCSI target adds protocol="iscsi", and nothing
   * is written when neither is set.
   */
  function MarshalSource(s: SCSISource, start: seq<Attr>): (r: Option<(seq<Attr>, SourceKind, Body)>)
    ensures r.None? <==> s.host.None? && s.iscsi.None?
    ensures s.host.Some? ==> r == Some((start, Host, s.host.value))
    ensures s.host.None? && s.iscsi.Some? ==> r == Some((start + [Attr("protocol", "iscsi")], ISCSI, s.iscsi.value))
  {
    if s.host.Some? then Some((start, Host, s.host.value))
    else if s.iscsi.Some? then Some((start + [Attr("protocol", "iscsi")], ISCSI, s.iscsi.value))
    else None
  }

  /**
   * DomainHostdevSubsysSCSISource.UnmarshalXML into the receiver `from`:
   * without `protocol` the engine decodes the element into a fresh host;
   * with protocol="iscsi" into a fresh iSCSI target; any other protocol
   * leaves the receiver as it was. The other member of the receiver is kept.
   * `decodeElement(k)` is the engine's DecodeElement into a member of kind `k`.
   */
  function DecodeSource(from: SCSISource, attrs: seq<Attr>, decodeElement: SourceKind -> Result<Body>): (r: Result<SCSISource>)
    ensures Lookup(attrs, "protocol").None? ==>
      r == (match decodeElement(Host) case Ok(b) => Ok(from.(host := Some(b))) case Err(e) => Err(e))
    ensures Lookup(attrs, "protocol") == Some("iscsi") ==>
      r == (match decodeElement(ISCSI) case Ok(b) => Ok(from.(iscsi := Some(b))) case Err(e) => Err(e))
    ensures Lookup(attrs, "protocol").Some? && Lookup(attrs, "protocol") != Some("iscsi") ==> r == Ok(from)
  {
    var proto := Lookup(attrs, "protocol");
    var withHost :-
      if proto.None? then
        var host :- decodeElement(Host);
        Ok(from.(host := Some(host)))
      else Ok(from);
    if proto.GetOr("") == "iscsi" then
      var target :- decodeElement(ISCSI);
      Ok(withHost.(iscsi := Some(target)))
    else Ok(withHost)
  }

  /**
   * Round trip: decoding into an empty receiver what the encoder wrote gives
   * back the member the encoder chose, and only that one, provided the
   * engine reads back the payload it wrote. `extra` stands for the
   * attributes the engine appends for the member's own fields (the iSCSI
   * target's `name`, say); a host's own fields must not include a
   * `protocol`, since the host is told apart by its absence.
   */
  lemma SourceRoundTrip(s: SCSISource, start: seq<Attr>, extra: seq<Attr>, decodeElement: SourceKind -> Result<Body>)
    requires s.host.Some? || s.iscsi.Some?
    requires Lookup(start, "protocol").None?
    requires s.host.Some? ==> Lookup(extra, "protocol").None?
    requires MarshalSource(s, start).Some?
    requires decodeElement(MarshalSource(s, start).value.1) == Ok(MarshalSource(s, start).value.2)
    ensures s.host.Some? ==> DecodeSource(EmptySource, MarshalSource(s, start).value.0 + extra, decodeElement) == Ok(SCSISource(s.host, None))
    ensures s.host.None? ==> DecodeSource(EmptySource, MarshalSource(s, start).value.0 + extra, decodeElement) == Ok(SCSISource(None, s.iscsi))
  {
    if s.host.None? {
      var written := start + [Attr("protocol", "iscsi")];
      LookupAppend(start, [Attr("protocol", "iscsi")], "protocol");
      LookupAppend(written, extra, "protocol");
    } else {
      LookupAppend(start, extra, "protocol");
    }
  }

  /** Decoding into an empty receiver never yields both members. */
  lemma DecodeAtMostOne(attrs: seq<Attr>, decodeElement: SourceKind -> Result<Body>)
    requires DecodeSource(EmptySource, attrs, decodeElement).Ok?
    ensures var s := DecodeSource(EmptySource, attrs, decodeElement).value;
      s.host.None? || s.iscsi.None?
  {
  }
}

/**
 * The <hostdev> element (domain.go:1801-1990). Its payload is a union of
 * eight members chosen by two attributes together, `mode` and `type`; the
 * fields common to all (managed, boot, address) are decoded by the engine
 * alongside the payload's own fields.
 */
module Hostdev {
  import opened Results
  import opened Xml

  /** The eight payloads, in the encoder's priority order. */
  datatype HostdevKind =
    | SubsysSCSI | SubsysSCSIHost | SubsysUSB | SubsysPCI | SubsysMDev
    | CapsStorage | CapsMisc | CapsNet

  function Rank(k: HostdevKind): nat {
    match k
    case SubsysSCSI => 0
    case SubsysSCSIHost => 1
    case SubsysUSB => 2
    case SubsysPCI => 3
    case SubsysMDev => 4
    case CapsStorage => 5
    case CapsMisc => 6
    case CapsNet => 7
  }

  /** The `mode` attribute of each payload. */
  function ModeOf(k: HostdevKind): string {
    if Rank(k) < 5 then "subsystem" else "capabilities"
  }

  /** The `type` attribute of each payload. */
  function TypeOf(k: HostdevKind): string {
    match k
    case SubsysSCSI => "scsi"
    case SubsysSCSIHost => "scsi_host"
    case SubsysUSB => "usb"
    case SubsysPCI => "pci"
    case SubsysMDev => "mdev"
    case CapsStorage => "storage"
    case CapsMisc => "misc"
    case CapsNet => "net"
  }

  /**
   * The decoder's nested if/else chains: a payload for each legal pair of
   * `mode` and `type`, and none for any other pair.
   */
  function KindOf(mode: string, typ: string): (r: Option<HostdevKind>)
    ensures forall k :: r == Some(k) <==> ModeOf(k) == mode && TypeOf(k) == typ
  {
    if mode == "subsystem" then
      if typ == "scsi" then Some(SubsysSCSI)
      else if typ == "scsi_host" then Some(SubsysSCSIHost)
      else if typ == "usb" then Some(SubsysUSB)
      else if typ == "pci" then Some(SubsysPCI)
      else if typ == "mdev" then Some(SubsysMDev)
      else None
    else if mode == "capabilities" then
      if typ == "storage" then Some(CapsStorage)
      else if typ == "misc" then Some(CapsMisc)
      else if typ == "net" then Some(CapsNet)
      else None
    else None
  }

  /** DomainHostdev: the common fields and the eight payload pointers, in the struct's order. */
  datatype DomainHostdev = DomainHostdev(
    common: Body,
    subsysUSB: Option<Body>, subsysSCSI: Option<Body>, subsysSCSIHost: Option<Body>,
    subsysPCI: Option<Body>, subsysMDev: Option<Body>,
    capsStorage: Option<Body>, capsMisc: Option<Body>, capsNet: Option<Body>)

  /** A hostdev with the given common fields and no payload. */
  function Bare(common: Body): (h: DomainHostdev)
    ensures h.common == common && forall k :: Member(h, k).None?
  {
    DomainHostdev(common, None, None, None, None, None, None, None, None)
  }

  function Member(h: DomainHostdev, k: HostdevKind): Option<Body> {
    match k
    case SubsysSCSI => h.subsysSCSI
    case SubsysSCSIHost => h.subsysSCSIHost
    case SubsysUSB => h.subsysUSB
    case SubsysPCI => h.subsysPCI
    case SubsysMDev => h.subsysMDev
    case CapsStorage => h.capsStorage
    case CapsMisc => h.capsMisc
    case CapsNet => h.capsNet
  }

  /** `h` with payload `k` replaced by `v`, the rest kept. */
  function SetMember(h: DomainHostdev, k: HostdevKind, v: Option<Body>): (r: DomainHostdev)
    ensures r.common == h.common
    ensures Member(r, k) == v && forall j :: j != k ==> Member(r, j) == Member(h, j)
  {
    match k
    case SubsysSCSI => h.(subsysSCSI := v)
    case SubsysSCSIHost => h.(subsysSCSIHost := v)
    case SubsysUSB => h.(subsysUSB := v)
    case SubsysPCI => h.(subsysPCI := v)
    case SubsysMDev => h.(subsysMDev := v)
    case CapsStorage => h.(capsStorage := v)
    case CapsMisc => h.(capsMisc := v)
    case CapsNet => h.(capsNet := v)
  }

  /** The encoder's if/else chain: the first payload present in priority order. */
  function FirstKind(h: DomainHostdev): (r: Option<HostdevKind>)
    ensures r.None? ==> forall k :: Member(h, k).None?
    ensures r.Some? ==> Member(h, r.value).Some? && forall k :: Rank(k) < Rank(r.value) ==> Member(h, k).None?
  {
    if h.subsysSCSI.Some? then Some(SubsysSCSI)
    else if h.subsysSCSIHost.Some? then Some(SubsysSCSIHost)
    else if h.subsysUSB.Some? then Some(SubsysUSB)
    else if h.subsysPCI.Some? then Some(SubsysPCI)
    else if h.subsysMDev.Some? then Some(SubsysMDev)
    else if h.capsStorage.Some? then Some(CapsStorage)
    else if h.capsMisc.Some? then Some(CapsMisc)
    else if h.capsNet.Some? then Some(CapsNet)
    else None
  }

  /**
   * The struct handed to the engine: a wrapper embedding the common fields
   * and one payload's fields (the generic wrapper has no payload, written
   * here as EmptyBody).
   */
  datatype Wire = Wire(common: Body, payload: Body)

  /** What DomainHostdev.MarshalXML hands to the engine. */
  datatype Encoded = Encoded(name: string, attrs: seq<Attr>, kind: Option<HostdevKind>, wire: Wire)

  /**
   * DomainHostdev.MarshalXML: the element is always named "hostdev"; the
   * first payload present adds its `mode` and then its `type` to the start
   * element and is encoded beside the common fields; with no payload the
   * generic wrapper is encoded and neither attribute is written.
   */
  function MarshalHostdev(h: DomainHostdev, start: seq<Attr>): (r: Encoded)
    ensures r.name == "hostdev" && r.kind == FirstKind(h) && r.wire.common == h.common
    ensures r.kind.None? ==> r.attrs == start && r.wire.payload == EmptyBody
    ensures r.kind.Some? ==>
      && r.attrs == start + [Attr("mode", ModeOf(r.kind.value)), Attr("type", TypeOf(r.kind.value))]
      && Member(h, r.kind.value) == Some(r.wire.payload)
  {
    match FirstKind(h)
    case None => Encoded("hostdev", start, None, Wire(h.common, EmptyBody))
    case Some(k) =>
      Encoded("hostdev", start + [Attr("mode", ModeOf(k)), Attr("type", TypeOf(k))], Some(k), Wire(h.common, Member(h, k).value))
  }

  const MissingMode := "Missing 'mode' attribute on domain hostdev"

  /** The message the source gives for a missing `type`; it names the controller, not the hostdev. */
  const MissingType := "Missing 'type' attribute on domain controller"

  /**
   * DomainHostdev.UnmarshalXML. `mode` is required, then `type`; a legal
   * pair has the engine decode the element into that payload's wrapper, any
   * other pair into the generic one. On success the receiver is replaced
   * whole: its common fields come from the wire, and it has the selected
   * payload and no other. `decodeElement(k)` is the engine's DecodeElement
   * into the wrapper for `k` (None for the generic wrapper).
   */
  function DecodeHostdev(attrs: seq<Attr>, decodeElement: Option<HostdevKind> -> Result<Wire>): (r: Result<DomainHostdev>)
    ensures Lookup(attrs, "mode").None? ==> r == Err(Missing(MissingMode))
    ensures Lookup(attrs, "mode").Some? && Lookup(attrs, "type").None? ==> r == Err(Missing(MissingType))
    ensures Lookup(attrs, "mode").Some? && Lookup(attrs, "type").Some? ==>
      var kind := KindOf(Lookup(attrs, "mode").value, Lookup(attrs, "type").value);
      && (decodeElement(kind).Err? ==> r == Err(decodeElement(kind).error))
      && (decodeElement(kind).Ok? ==>
            && r.Ok?
            && r.value.common == decodeElement(kind).value.common
            && forall k :: Member(r.value, k) == if kind == Some(k) then Some(decodeElement(kind).value.payload) else None)
  {
    match Lookup(attrs, "mode")
    case None => Err(Missing(MissingMode))
    case Some(mode) =>
      match Lookup(attrs, "type")
      case None => Err(Missing(MissingType))
      case Some(typ) =>
        var kind := KindOf(mode, typ);
        var wire :- decodeElement(kind);
        match kind
        case None => Ok(Bare(wire.common))
        case Some(k) => Ok(SetMember(Bare(wire.common), k, Some(wire.payload)))
  }

  /** A decoded hostdev never has two payloads. */
  lemma DecodeAtMostOne(attrs: seq<Attr>, decodeElement: Option<HostdevKind> -> Result<Wire>, j: HostdevKind, k: HostdevKind)
    requires DecodeHostdev(attrs, decodeElement).Ok?
    requires Member(DecodeHostdev(attrs, decodeElement).value, j).Some?
    requires Member(DecodeHostdev(attrs, decodeElement).value, k).Some?
    ensures j == k
  {
  }

  /**
   * Round trip: the `mode` and `type` the encoder writes select, on
   * decoding, the payload the encoder wrote; if the engine reads back the
   * wire it wrote, the hostdev comes back with its common fields and that
   * payload alone. `extra` stands for the attributes the engine appends
   * for the common and payload fields (`managed`, say).
   */
  lemma HostdevRoundTrip(h: DomainHostdev, start: seq<Attr>, extra: seq<Attr>, decodeElement: Option<HostdevKind> -> Result<Wire>)
    requires FirstKind(h).Some?
    requires Lookup(start, "mode").None? && Lookup(start, "type").None?
    requires decodeElement(FirstKind(h)) == Ok(MarshalHostdev(h, start).wire)
    ensures DecodeHostdev(MarshalHostdev(h, start).attrs + extra, decodeElement)
      == Ok(SetMember(Bare(h.common), FirstKind(h).value, Member(h, FirstKind(h).value)))
  {
    var k := FirstKind(h).value;
    var tail := [Attr("mode", ModeOf(k)), Attr("type", TypeOf(k))];
    LookupAppend(start, tail, "mode");
    LookupAppend(start, tail, "type");
    assert Lookup(tail, "type") == Some(TypeOf(k));
    LookupAppend(start + tail, extra, "mode");
    LookupAppend(start + tail, extra, "type");
  }

  /** A hostdev with exactly one payload survives the round trip whole. */
  lemma HostdevRoundTripOnly(h: DomainHostdev, k: HostdevKind, start: seq<Attr>, extra: seq<Attr>, decodeElement: Option<HostdevKind> -> Result<Wire>)
    requires Member(h, k).Some? && forall j :: j != k ==> Member(h, j).None?
    requires Lookup(start, "mode").None? && Lookup(start, "type").None?
    requires decodeElement(Some(k)) == Ok(Wire(h.common, Member(h, k).value))
    ensures DecodeHostdev(MarshalHostdev(h, start).attrs + extra, decodeElement) == Ok(h)
  {
    assert FirstKind(h) == Some(k);
    assert MarshalHostdev(h, start).wire == Wire(h.common, Member(h, k).value);
    HostdevRoundTrip(h, start, extra, decodeElement);
    MemberExt(SetMember(Bare(h.common), k, Member(h, k)), h);
  }

  /** Two hostdevs with the same common fields and the same payloads are the same hostdev. */
  lemma MemberExt(g: DomainHostdev, h: DomainHostdev)
    requires g.common == h.common
    requires forall k :: Member(g, k) == Member(h, k)
    ensures g == h
  {
    assert Member(g, SubsysUSB) == Member(h, SubsysUSB);
    assert Member(g, SubsysSCSI) == Member(h, SubsysSCSI);
    assert Member(g, SubsysSCSIHost) == Member(h, SubsysSCSIHost);
    assert Member(g, SubsysPCI) == Member(h, SubsysPCI);
    assert Member(g, SubsysMDev) == Member(h, SubsysMDev);
    assert Member(g, CapsStorage) == Member(h, CapsStorage);
    assert Member(g, CapsMisc) == Member(h, CapsMisc);
    assert Member(g, CapsNet) == Member(h, CapsNet);
  }

  /**
   * A hostdev with no payload is written without `mode`, so what the
   * encoder writes for it is refused by the decoder.
   */
  lemma NoPayloadUnreadable(h: DomainHostdev, start: seq<Attr>, extra: seq<Attr>, decodeElement: Option<HostdevKind> -> Result<Wire>)
    requires FirstKind(h).None?
    requires Lookup(start, "mode").None? && Lookup(extra, "mode").None?
    ensures DecodeHostdev(MarshalHostdev(h, start).attrs + extra, decodeElement) == Err(Missing(MissingMode))
  {
    LookupAppend(start, extra, "mode");
  }
}
