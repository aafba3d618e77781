/**
 * The <filesystem> element (domain.go:1463-1568). The kind of source is
 * written as the `type` attribute of the parent <filesystem>, not on
 * <source>: the parent's decoder reads it (defaulting to "mount") and
 * allocates the matching source member before the engine decodes the
 * element, and the source's own decoder then fills whichever member is
 * already allocated.
 */
module Filesystem {
  import opened Results
  import opened Xml

  /** The seven source members, in the encoders' priority order. */
  datatype SourceKind = Mount | Block | File | Template | RAM | Bind | Volume

  function Rank(k: SourceKind): nat {
    match k
    case Mount => 0
    case Block => 1
    case File => 2
    case Template => 3
    case RAM => 4
    case Bind => 5
    case Volume => 6
  }

  /** The `type` string of the parent element that stands for each member. */
  function TypeName(k: SourceKind): string {
    match k
    case Mount => "mount"
    case Block => "block"
    case File => "file"
    case Template => "template"
    case RAM => "ram"
    case Bind => "bind"
    case Volume => "volume"
  }

  /** The decoder's if/else chain on the type string; other strings select nothing. */
  function KindOf(typ: string): (r: Option<SourceKind>)
    ensures forall k :: r == Some(k) <==> TypeName(k) == typ
  {
    if typ == "mount" then Some(Mount)
    else if typ == "block" then Some(Block)
    else if typ == "file" then Some(File)
    else if typ == "template" then Some(Template)
    else if typ == "ram" then Some(RAM)
    else if typ == "bind" then Some(Bind)
    else if typ == "volume" then Some(Volume)
    else None
  }

  /** DomainFilesystemSource; each member's own fields are left to the engine. */
  datatype FilesystemSource = FilesystemSource(
    mount: Option<Body>, block: Option<Body>, file: Option<Body>, template: Option<Body>,
    ram: Option<Body>, bind: Option<Body>, volume: Option<Body>)

  const EmptySource := FilesystemSource(None, None, None, None, None, None, None)

  function Member(s: FilesystemSource, k: SourceKind): Option<Body> {
    match k
    case Mount => s.mount
    case Block => s.block
    case File => s.file
    case Template => s.template
    case RAM => s.ram
    case Bind => s.bind
    case Volume => s.volume
  }

  /** `s` with member `k` replaced by `v` and the others kept. */
  function SetMember(s: FilesystemSource, k: SourceKind, v: Option<Body>): (r: FilesystemSource)
    ensures Member(r, k) == v && forall j :: j != k ==> Member(r, j) == Member(s, j)
  {
    match k
    case Mount => s.(mount := v)
    case Block => s.(block := v)
    case File => s.(file := v)
    case Template => s.(template := v)
    case RAM => s.(ram := v)
    case Bind => s.(bind := v)
    case Volume => s.(volume := v)
  }

  /** The if/else chain both hooks of the source share: the first member present. */
  function FirstKind(s: FilesystemSource): (r: Option<SourceKind>)
    ensures r.None? ==> forall k :: Member(s, k).None?
    ensures r.Some? ==> Member(s, r.value).Some? && forall k :: Rank(k) < Rank(r.value) ==> Member(s, k).None?
  {
    if s.mount.Some? then Some(Mount)
    else if s.block.Some? then Some(Block)
    else if s.file.Some? then Some(File)
    else if s.template.Some? then Some(Template)
    else if s.ram.Some? then Some(RAM)
    else if s.bind.Some? then Some(Bind)
    else if s.volume.Some? then Some(Volume)
    else None
  }

  /** DomainFilesystemSource.MarshalXML: the member handed to the engine, or nothing when none is set. */
  function MarshalSource(s: FilesystemSource): (r: Option<(SourceKind, Body)>)
    ensures r.None? ==> forall k :: Member(s, k).None?
    ensures r.Some? ==> FirstKind(s) == Some(r.value.0) && Member(s, r.value.0) == Some(r.value.1)
  {
    match FirstKind(s)
    case None => None
    case Some(k) => Some((k, Member(s, k).value))
  }

  /**
   * DomainFilesystemSource.UnmarshalXML into `from`: the engine decodes the
   * element into the first member already allocated; with none allocated,
   * nothing is decoded. `decodeElement(k)` is the engine's DecodeElement
   * into a member of kind `k`.
   */
  function DecodeSource(from: FilesystemSource, decodeElement: SourceKind -> Result<Body>): (r: Result<FilesystemSource>)
    ensures FirstKind(from).None? ==> r == Ok(from)
    ensures FirstKind(from).Some? ==> var k := FirstKind(from).value;
      && (decodeElement(k).Err? ==> r == Err(decodeElement(k).error))
      && (decodeElement(k).Ok? ==>
            && r.Ok?
            && Member(r.value, k) == Some(decodeElement(k).value)
            && forall j :: j != k ==> Member(r.value, j) == Member(from, j))
  {
    match FirstKind(from)
    case None => Ok(from)
    case Some(k) =>
      var b :- decodeElement(k);
      Ok(SetMember(from, k, Some(b)))
  }

  /**
   * The source's decoder as written: it reads the element to its end tag
   * only by decoding it into a member, and returns at once when none is
   * allocated.
   */
  function SourceOutcomeAsWritten(from: FilesystemSource, decodeElement: SourceKind -> Result<Body>): (o: Outcome<FilesystemSource>)
    ensures o.result == DecodeSource(from, decodeElement)
    ensures o.consumed <==> exists k :: Member(from, k).Some?
  {
    assert FirstKind(from).Some? ==> Member(from, FirstKind(from).value).Some?;
    Outcome(DecodeSource(from, decodeElement), FirstKind(from).Some?)
  }

  /** The source's decoder with d.Skip() when no member is allocated: it always consumes the element. */
  function SourceOutcome(from: FilesystemSource, decodeElement: SourceKind -> Result<Body>): (o: Outcome<FilesystemSource>)
    ensures o.result == DecodeSource(from, decodeElement) && o.consumed
  {
    Outcome(DecodeSource(from, decodeElement), true)
  }

  /** DomainFilesystem: `common` stands for every field but the source (access mode, driver, target, ...). */
  datatype DomainFilesystem = DomainFilesystem(common: Body, source: Option<FilesystemSource>)

  /**
   * DomainFilesystem.MarshalXML: the attributes of the start element, which
   * gain a `type` for the first source member present; the filesystem
   * itself is then handed to the engine unchanged.
   */
  function FilesystemAttrs(f: DomainFilesystem, start: seq<Attr>): (r: seq<Attr>)
    ensures f.source.None? || FirstKind(f.source.value).None? ==> r == start
    ensures f.source.Some? && FirstKind(f.source.value).Some? ==>
      r == start + [Attr("type", TypeName(FirstKind(f.source.value).value))]
  {
    if f.source.Some? then
      match FirstKind(f.source.value)
      case None => start
      case Some(k) => start + [Attr("type", TypeName(k))]
    else start
  }

  /**
   * The source DomainFilesystem.UnmarshalXML allocates before the engine
   * runs: a fresh source whose one member is the one the `type` attribute
   * names, "mount" when there is no `type`; an unknown type allocates none.
   */
  function PresetSource(attrs: seq<Attr>): (r: FilesystemSource)
    ensures var typ := Lookup(attrs, "type").GetOr("mount");
      forall k :: Member(r, k) == if TypeName(k) == typ then Some(EmptyBody) else None
  {
    match KindOf(Lookup(attrs, "type").GetOr("mount"))
    case None => EmptySource
    case Some(k) => SetMember(EmptySource, k, Some(EmptyBody))
  }

  /**
   * DomainFilesystem.UnmarshalXML: the receiver, with its source replaced by
   * the preset one, is handed to the engine. The engine decodes every field
   * but the source (`decodeCommon`, starting from the receiver's own fields)
   * and, when the element has a <source> child (`sourceChild`), decodes that
   * child through the source's hook as written; without such a child the
   * preset source stays.
   */
  function DecodeFilesystem(from: DomainFilesystem, attrs: seq<Attr>, decodeCommon: Body -> Result<Body>,
                            sourceChild: bool, decodeElement: SourceKind -> Result<Body>): (r: Result<DomainFilesystem>)
    ensures decodeCommon(from.common).Err? ==> r == Err(decodeCommon(from.common).error)
    ensures r.Ok? ==> r.value.common == decodeCommon(from.common).value && r.value.source.Some?
    ensures r.Ok? ==> var typ := Lookup(attrs, "type").GetOr("mount");
      forall k :: Member(r.value.source.value, k).Some? <==> TypeName(k) == typ
    ensures decodeCommon(from.common).Ok? && !sourceChild ==>
      r == Ok(DomainFilesystem(decodeCommon(from.common).value, Some(PresetSource(attrs))))
    ensures decodeCommon(from.common).Ok? && sourceChild && KindOf(Lookup(attrs, "type").GetOr("mount")).Some? ==>
      var k := KindOf(Lookup(attrs, "type").GetOr("mount")).value;
      && (r.Ok? <==> decodeElement(k).Ok?)
      && (r.Err? ==> r.error == decodeElement(k).error)
      && (r.Ok? ==> Member(r.value.source.value, k) == Some(decodeElement(k).value))
    ensures decodeCommon(from.common).Ok? && sourceChild && KindOf(Lookup(attrs, "type").GetOr("mount")).None? ==>
      r == Err(NotConsumed("source"))
  {
    var common :- decodeCommon(from.common);
    var preset := PresetSource(attrs);
    if sourceChild then
      var source :- AfterHook("source", SourceOutcomeAsWritten(preset, decodeElement));
      Ok(DomainFilesystem(common, Some(source)))
    else
      Ok(DomainFilesystem(common, Some(preset)))
  }

  /**
   * DomainFilesystem.UnmarshalXML with the source's hook skipping its
   * element when no member is allocated: it agrees with the decoder as
   * written except on a filesystem of unknown type with a <source> child,
   * which it accepts with a source that has no member.
   */
  function DecodeFilesystemCorrected(from: DomainFilesystem, attrs: seq<Attr>, decodeCommon: Body -> Result<Body>,
                                     sourceChild: bool, decodeElement: SourceKind -> Result<Body>): (r: Result<DomainFilesystem>)
    ensures !sourceChild || KindOf(Lookup(attrs, "type").GetOr("mount")).Some? ==>
      r == DecodeFilesystem(from, attrs, decodeCommon, sourceChild, decodeElement)
    ensures decodeCommon(from.common).Ok? && sourceChild && KindOf(Lookup(attrs, "type").GetOr("mount")).None? ==>
      r == Ok(DomainFilesystem(decodeCommon(from.common).value, Some(EmptySource)))
  {
    var common :- decodeCommon(from.common);
    var preset := PresetSource(attrs);
    if sourceChild then
      var source :- AfterHook("source", SourceOutcome(preset, decodeElement));
      Ok(DomainFilesystem(common, Some(source)))
    else
      Ok(DomainFilesystem(common, Some(preset)))
  }

  /** Without a `type` attribute the decoder allocates exactly the mount member. */
  lemma DefaultIsMount(attrs: seq<Attr>)
    requires Lookup(attrs, "type").None?
    ensures PresetSource(attrs) == EmptySource.(mount := Some(EmptyBody))
  {
    assert Member(PresetSource(attrs), Mount) == Some(EmptyBody);
  }

  /**
   * The kind survives a round trip: the `type` the encoder writes, in front
   * of the attributes the engine adds for the other fields, makes the
   * decoder allocate exactly the member the encoder wrote, and the source's
   * decoder then hands that member's element to the engine. If the engine
   * reads back what it wrote, the source comes back with that member alone.
   */
  lemma SourceRoundTrip(f: DomainFilesystem, k: SourceKind, extra: seq<Attr>, decodeElement: SourceKind -> Result<Body>)
    requires f.source.Some? && FirstKind(f.source.value) == Some(k)
    requires decodeElement(k) == Ok(Member(f.source.value, k).value)
    ensures var preset := PresetSource(FilesystemAttrs(f, []) + extra);
      && FirstKind(preset) == Some(k)
      && DecodeSource(preset, decodeElement) == Ok(SetMember(EmptySource, k, Member(f.source.value, k)))
  {
    var written := FilesystemAttrs(f, []);
    assert written == [Attr("type", TypeName(k))];
    LookupAppend(written, extra, "type");
    assert Lookup(written + extra, "type") == Some(TypeName(k));
    var preset := PresetSource(written + extra);
    assert preset == SetMember(EmptySource, k, Some(EmptyBody));
    assert FirstKind(preset) == Some(k) by {
      assert Member(preset, k).Some?;
      assert forall j :: j != k ==> Member(preset, j).None?;
    }
    var r := SetMember(EmptySource, k, Member(f.source.value, k));
    assert SetMember(preset, k, Member(f.source.value, k)) == r by {
      assert forall j :: Member(SetMember(preset, k, Member(f.source.value, k)), j) == Member(r, j);
      MemberExt(SetMember(preset, k, Member(f.source.value, k)), r);
    }
  }

  /**
   * Round trip of the whole element: a filesystem whose source has a member
   * is written with that member's `type` and a <source> child; if the engine
   * reads back the other fields and the member it wrote, decoding gives the
   * same fields and a source holding that member alone.
   */
  lemma FilesystemRoundTrip(f: DomainFilesystem, from: DomainFilesystem, k: SourceKind, extra: seq<Attr>,
                            decodeCommon: Body -> Result<Body>, decodeElement: SourceKind -> Result<Body>)
    requires f.source.Some? && FirstKind(f.source.value) == Some(k)
    requires decodeCommon(from.common) == Ok(f.common)
    requires decodeElement(k) == Ok(Member(f.source.value, k).value)
    ensures MarshalSource(f.source.value).Some?
    ensures DecodeFilesystem(from, FilesystemAttrs(f, []) + extra, decodeCommon, true, decodeElement)
      == Ok(DomainFilesystem(f.common, Some(SetMember(EmptySource, k, Member(f.source.value, k)))))
  {
    SourceRoundTrip(f, k, extra, decodeElement);
  }

  /** A filesystem whose source has exactly one member comes back unchanged. */
  lemma FilesystemRoundTripOnly(f: DomainFilesystem, from: DomainFilesystem, k: SourceKind, extra: seq<Attr>,
                                decodeCommon: Body -> Result<Body>, decodeElement: SourceKind -> Result<Body>)
    requires f.source.Some? && Member(f.source.value, k).Some?
    requires forall j :: j != k ==> Member(f.source.value, j).None?
    requires decodeCommon(from.common) == Ok(f.common)
    requires decodeElement(k) == Ok(Member(f.source.value, k).value)
    ensures DecodeFilesystem(from, FilesystemAttrs(f, []) + extra, decodeCommon, true, decodeElement) == Ok(f)
  {
    assert FirstKind(f.source.value) == Some(k);
    FilesystemRoundTrip(f, from, k, extra, decodeCommon, decodeElement);
    MemberExt(SetMember(EmptySource, k, Member(f.source.value, k)), f.source.value);
  }

  /**
   * A filesystem without a source, or whose source has no member, is
   * written with neither `type` nor a <source> child, and decodes back
   * with a source holding an empty mount member: the decoder always
   * allocates one.
   */
  lemma NoSourceComesBackMount(f: DomainFilesystem, from: DomainFilesystem, extra: seq<Attr>,
                               decodeCommon: Body -> Result<Body>, decodeElement: SourceKind -> Result<Body>)
    requires f.source.None? || FirstKind(f.source.value).None?
    requires Lookup(extra, "type").None?
    requires decodeCommon(from.common) == Ok(f.common)
    ensures FilesystemAttrs(f, []) + extra == extra
    ensures DecodeFilesystem(from, FilesystemAttrs(f, []) + extra, decodeCommon, false, decodeElement)
      == Ok(DomainFilesystem(f.common, Some(EmptySource.(mount := Some(EmptyBody)))))
  {
    DefaultIsMount(extra);
  }

  /** Two sources with the same members are the same source. */
  lemma MemberExt(s: FilesystemSource, t: FilesystemSource)
    requires forall k :: Member(s, k) == Member(t, k)
    ensures s == t
  {
    assert Member(s, Mount) == Member(t, Mount);
    assert Member(s, Block) == Member(t, Block);
    assert Member(s, File) == Member(t, File);
    assert Member(s, Template) == Member(t, Template);
    assert Member(s, RAM) == Member(t, RAM);
    assert Member(s, Bind) == Member(t, Bind);
    assert Member(s, Volume) == Member(t, Volume);
  }

  /**
   * As written, a <filesystem> of an unknown type that has a <source>
   * child fails in the engine: the parent allocates a source with no
   * member, and the source's decoder returns without reading its element.
   */
  lemma UnknownTypeSourceRejected(decodeElement: SourceKind -> Result<Body>)
    ensures var preset := PresetSource([Attr("type", "nfs")]);
      AfterHook("source", SourceOutcomeAsWritten(preset, decodeElement)) == Err(NotConsumed("source"))
  {
    var preset := PresetSource([Attr("type", "nfs")]);
    assert Lookup([Attr("type", "nfs")], "type") == Some("nfs");
    assert preset == EmptySource;
  }

  /** With the element skipped, the source of a filesystem of unknown type decodes to a source with no member. */
  lemma UnknownTypeSourceIgnored(attrs: seq<Attr>, decodeElement: SourceKind -> Result<Body>)
    requires KindOf(Lookup(attrs, "type").GetOr("mount")).None?
    ensures AfterHook("source", SourceOutcome(PresetSource(attrs), decodeElement)) == Ok(EmptySource)
  {
    assert PresetSource(attrs) == EmptySource;
  }

  /** The source decoded from what the parent allocated has at most one member. */
  lemma DecodeAtMostOne(attrs: seq<Attr>, decodeElement: SourceKind -> Result<Body>, j: SourceKind, k: SourceKind)
    requires DecodeSource(PresetSource(attrs), decodeElement).Ok?
    requires Member(DecodeSource(PresetSource(attrs), decodeElement).value, j).Some?
    requires Member(DecodeSource(PresetSource(attrs), decodeElement).value, k).Some?
    ensures j == k
  {
  }
}
