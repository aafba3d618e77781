# libvirt-go-xml: the hand-written XML codecs, in Dafny

libvirt-go-xml maps libvirt's XML documents (domains, node devices, ...) to Go
structs. Almost all of that mapping is done by Go's generic `encoding/xml`
engine from struct tags. The exception is twenty types in `domain.go` and
`node_device.go` with their own `MarshalXML`/`UnmarshalXML` hooks (forty
hooks in all). Those hooks are the logic this project models:

- the numeric attribute helpers `marshallUint*Attr` and `unmarshallUint*Attr`, with
  `fmt.Sprintf` and `strconv.ParseUint` written out (`numbers.dfy`);
- `getAttr` and the attribute and token loops shared by the decoders (`xml.dfy`);
- the nine-way `<address>` union (`address.dfy`);
- the controller and its PCI target (`controller.dfy`);
- the filesystem and its seven-way source (`filesystem.dfy`);
- the RNG backend (`rng.dfy`);
- the SCSI host-device source and the eight-way `mode`×`type` hostdev (`hostdev.dfy`);
- the node device's CCW capability, four-way PCI sub-capability and
  eleven-way capability (`node_device.dfy`).

**Unions.** Each union is a record of `Option` members, as in the Go struct of
pointers. That keeps the encoder's priority order visible (`FirstKind`) and
also the case where nothing is set.

**Decoders and receivers.** A decoder that may be called on a receiver that
already holds values is a function from the old receiver `from` to the new one.
So it is visible which members it keeps. "At most one member" is proved for
decoding into an empty receiver.

**Loops.** The loops of the source are methods proved against those functions:
- `GetAttr` against `Lookup`;
- `UnmarshalAttrs` against `FoldAttrs`;
- `UnmarshalAddress`, `UnmarshalTarget` and `UnmarshalCCW`.

**The generic engine.** Whatever the engine encodes for a payload struct is an
opaque `Body` that the hooks pass through. Where a hook calls the engine's
`DecodeElement`, the model takes that call as a function parameter
(`decodeElement`). Round-trip lemmas assume only that the engine reads back
what it wrote.

**Behaviour of the code that one might not expect, which the model keeps:**
- An `<address>` with no member set is not written as `<address></address>`. The hook emits nothing at all (domain.go:2175-2177, `Address.MarshalAddress`).
- The controller encoder picks its payload by the `Type` field, not by which payload pointer is set (domain.go:1358-1385, `Controller.MarshalController`).
- A hostdev without `type` is refused with the message "Missing 'type' attribute on domain controller" (domain.go:1904). It does not name the hostdev (`Hostdev.MissingType`).
- An `<address>` of unknown type is not skipped, unlike one with an empty `type` (domain.go:2370-2373). The code returns without consuming it, and the engine turns that into an error (see Findings).

## Model

| member | source | states |
|---|---|---|
| Xml.Lookup | domain.go:1387-1394 | The value of the first attribute with the name. None exactly when no attribute has it. |
| Xml.GetAttr | domain.go:1387-1394 | The first-match loop returns `ok` exactly when an attribute has the name, and the first such value (else ""). |
| Xml.LookupAppend | domain.go:1387-1394 | An attribute appended to a start element is found only if no earlier attribute has its name. This is what lets a hook's appended discriminator be read back. |
| Xml.StrAttr | domain.go:2049-2053 | A string attribute is written exactly when the value is non-empty, under its name. |
| Xml.UnmarshalAttrs | domain.go:2205-2221 | The `range start.Attr` loop returns the first step error, or the receiver after every step. This equals the fold specification. |
| Xml.FoldIgnoresForeign | domain.go:2223-2247 | If the if/else chain leaves the receiver alone for unknown names, dropping those attributes does not change the result. |
| Xml.FoldOkIff | domain.go:2223-2247 | If a step's failure depends only on the attribute, the loop succeeds exactly when every attribute is accepted. |
| Xml.AfterHook | domain.go:2362-2405 | The engine's check after a hook: errors pass through. A success that did not consume the element becomes NotConsumed, and only then. |
| Numbers.Sprintf | domain.go:2028-2042 | `%d` yields canonical decimal digits of n, "0" only for 0. `0x%0Nx` yields "0x" then lower-case hex digits of n, at least N of them, with no surplus leading zero. |
| Numbers.UintAttr | domain.go:2028-2042 | An absent value adds no attribute. A present one adds exactly one, under the name, whose text every base able to read the format parses back to the value. |
| Numbers.AccumulateSpec | domain.go:2180-2190 | The ParseUint digit loop succeeds exactly when all characters are digits of the radix and the value fits 64 bits. It then returns that value. Errors carry the original text. |
| Numbers.UnmarshalUintSpec | domain.go:2180-2203 | With base 10 or 16 (after dropping one leading "0x" for 16): success exactly for non-empty digit text whose value fits. The value is the digits' value. Otherwise a NumError naming the text. |
| Numbers.Base0LeadingZeroOctal | domain.go:2223-2247 | With base 0, text starting with '0' and no 0b/0o/0x prefix is octal: read exactly when the rest is octal digits in range, as their octal value. So `slot="010"` reads as 8. |
| Numbers.UnmarshalBase0Spec | domain.go:2223-2247 | With base 0, a "0x" prefix reads hex and text not starting with '0' reads decimal, each succeeding exactly for valid digits in range. Empty text fails. |
| Numbers.UnmarshalSprintf | domain.go:2180-2203 | Parse after format: any 64-bit value written in decimal or padded hex reads back unchanged with every base that reads that format. |
| Numbers.UnmarshalSprintfAll | domain.go:2028-2042 | For every format and every base that can read it, the text written for a value parses back to that value. |
| Numbers.PciWidthExamples | domain.go:2044-2057 | 0 is written "0x0000", "0x00" and "0x0" at the widths of domain, bus/slot and function; 3 at width 2 is "0x03". |
| Address.KindOf | domain.go:2375-2403 | The decoder's chain maps a type string to a member exactly when it is that member's type name. |
| Address.FirstKind | domain.go:2129-2178 | The encoder picks a present member with every member before it in priority order absent; none exactly when none is present. |
| Address.MarshalAddress | domain.go:2129-2178 | Nothing is written when no member is set. Otherwise a start and an end element: the start's attributes are the given ones, then `type`, then the chosen member's attributes. |
| Address.UnmarshalAddress | domain.go:2362-2405 | The dispatcher, with each member's attribute loop run as a loop, computes `DecodeAddress`. |
| Address.RoundTripUSB | domain.go:2205-2221 | The USB decoder (bus, device base 10; port as text) reads back exactly what the USB encoder wrote. |
| Address.RoundTripPCI | domain.go:2223-2247 | The PCI decoder (base 0) reads back the 0x%04x/0x%02x/0x%02x/0x%x fields and multifunction the encoder wrote. |
| Address.RoundTripDrive | domain.go:2249-2271 | The drive decoder (base 10) reads back the four decimal fields. |
| Address.RoundTripDIMM | domain.go:2273-2287 | The DIMM decoder reads back slot (decimal, base 10) and base (0x%x, base 16). |
| Address.RoundTripISA | domain.go:2289-2303 | The ISA decoder (base 16) reads back iobase and irq written as 0x%x. |
| Address.RoundTripCCW | domain.go:2310-2328 | The CCW decoder (base 0) reads back cssid, ssid (0x%x) and devno (0x%04x). |
| Address.RoundTripVirtioSerial | domain.go:2330-2348 | The virtio-serial decoder (base 10) reads back its three decimal fields. |
| Address.RoundTripSpaprVIO | domain.go:2350-2360 | The spapr-vio decoder (base 16) reads back reg written as 0x%x. |
| Address.MemberSkipsType | domain.go:2205-2360 | Every member's attribute loop ignores the `type` attribute the dispatcher wrote in front of its own. |
| Address.MemberRoundTrip | domain.go:2205-2360 | Decoding the attributes a member's encoder wrote stores exactly that member into the receiver and changes nothing else. |
| Address.RoundTrip | domain.go:2129-2405 | Decoding what the encoder wrote, into an empty address, gives the encoder's chosen member alone, with equal fields. |
| Address.RoundTripOnly | domain.go:2129-2405 | An address with exactly one member set comes back unchanged. |
| Address.DecodeSetsOne | domain.go:2362-2405 | An unknown type leaves the receiver as it was. A known type, on success, sets that member and keeps every other member of the receiver. |
| Address.DecodeAtMostOne | domain.go:2362-2405 | Decoded into an empty address, the result is empty for a missing, empty or unknown type, and otherwise has exactly the typed member. |
| Address.MemberOkIff | domain.go:2205-2360 | A member's decoder fails exactly when some attribute it knows holds text its base cannot parse. |
| Address.DecodeOkIff | domain.go:2362-2405 | The dispatcher cannot fail without a known type. With one, it succeeds exactly when the member accepts every attribute. |
| Address.DecodeIgnoresForeign | domain.go:2205-2360 | Attributes not belonging to the chosen member do not affect its decoding. |
| Address.PciExample | domain.go:2044-2057 | The PCI address 0000:00:03.0 is written `type="pci" domain="0x0000" bus="0x00" slot="0x03" function="0x0"`. |
| Address.AddressOutcomeAsWritten | domain.go:2362-2405 | The decoder as written consumes its element exactly for an empty or known type. |
| Address.UnknownTypeRejected | domain.go:2404 | As written, `type="unassigned"` ends in the engine's "did not consume" error. |
| Address.AddressOutcome | domain.go:2370-2373 | The corrected decoder skips the element on every path, as the empty-type branch does. |
| Address.UnknownTypeIgnored | domain.go:2370-2373 | With the skip, an unknown type leaves the receiver unchanged and succeeds. |
| Controller.NodeTokens | domain.go:1291-1298 | A NUMA node is written as a `<node>` element whose text parses back (base 10) to it; an absent one writes nothing. |
| Controller.MarshalTarget | domain.go:1284-1301 | The target element carries the five decimal attributes and then the optional `<node>` child. |
| Controller.UnmarshalTarget | domain.go:1303-1356 | Both loops (attributes, then tokens) compute `DecodeTarget`: a `<node>` start reads the next token as decimal text. |
| Controller.ScanNodeTokens | domain.go:1326-1356 | The token loop reads the `<node>` child the encoder writes back into the NUMA node, and an absent node leaves it absent. |
| Controller.TargetAttrsRoundTrip | domain.go:1303-1340 | The attribute loop (port base 0, others base 10) reads back all five attributes. |
| Controller.TargetRoundTrip | domain.go:1284-1356 | Decoding the target element the encoder wrote gives back the same target, NUMA node included. |
| Controller.MarshalController | domain.go:1358-1385 | The wire carries Type and the common fields. For pci, usb and virtio-serial its payload is that payload of the controller (zero if nil), never another. Other types write an empty payload. |
| Controller.DecodeController | domain.go:1396-1437 | A missing `type` is an error with the source's message. An engine error is returned unchanged. Otherwise the receiver is replaced by what the engine decoded: its Type and common fields, and its payload as the one member matching `type`. |
| Controller.Normalize | domain.go:1358-1437 | The controller a round trip yields: type and common fields kept, exactly the matching payload present. |
| Controller.EncodeIgnoresOtherPayloads | domain.go:1358-1385 | Payloads that do not match Type do not affect what is written. |
| Controller.NormalizeIdempotent | domain.go:1358-1437 | Normalising twice is normalising once. |
| Controller.ControllerRoundTrip | domain.go:1358-1437 | With `type` present and the engine reading back its wire, decoding what was encoded gives the normalised controller. |
| Controller.DecodeIsNormal | domain.go:1396-1437 | Whatever the decoder returns is its own normal form. |
| Filesystem.KindOf | domain.go:1545-1559 | The decoder's chain selects a source member exactly for its type name. |
| Filesystem.FirstKind | domain.go:1463-1480 | The hooks pick the first present source member in the order mount, block, file, template, ram, bind, volume. |
| Filesystem.MarshalSource | domain.go:1463-1480 | The source hook writes the first member present, or nothing at all. |
| Filesystem.DecodeSource | domain.go:1482-1499 | The source hook decodes into the first member already allocated, keeping the others. With none allocated, the receiver is unchanged. |
| Filesystem.FilesystemAttrs | domain.go:1503-1538 | The parent's start element gains `type` for the first source member present, and only then. |
| Filesystem.PresetSource | domain.go:1540-1559 | The decoder always allocates a source, with exactly the member named by `type` ("mount" if absent). An unknown type allocates none. |
| Filesystem.DecodeFilesystem | domain.go:1540-1568 | On success the filesystem always has a source. Its members are exactly the one `type` names ("mount" if absent), whether or not a `<source>` child is present. With a child, the decode fails exactly when the engine fails on that member, and the member holds what the engine read. Errors in the other fields pass through. An unknown `type` with a `<source>` child ends in the engine's "did not consume" error for `<source>`. |
| Filesystem.DecodeFilesystemCorrected | domain.go:1540-1568 | With the source's element skipped when no member is allocated, the decoder agrees with the one as written, except that an unknown `type` with a `<source>` child gives a source with no member. |
| Filesystem.DefaultIsMount | domain.go:1541-1545 | Without `type`, exactly the mount member is allocated. |
| Filesystem.SourceRoundTrip | domain.go:1503-1568 | The `type` the encoder writes, followed by whatever attributes the engine adds, makes the decoder allocate the member it wrote. The source then comes back with that member alone. |
| Filesystem.FilesystemRoundTrip | domain.go:1503-1568 | A filesystem whose source has a member is written with a `<source>` child, and decoding what was written gives the same fields and that member alone. |
| Filesystem.FilesystemRoundTripOnly | domain.go:1503-1568 | A filesystem whose source has exactly one member comes back unchanged. |
| Filesystem.NoSourceComesBackMount | domain.go:1503-1568 | A filesystem without a source, or whose source has no member, is written with no `type` and no `<source>` child, and comes back with a source holding an empty mount member. |
| Filesystem.DecodeAtMostOne | domain.go:1482-1568 | The decoded source has at most one member. |
| Filesystem.SourceOutcomeAsWritten | domain.go:1482-1499 | The source hook as written consumes its element exactly when some member is allocated. |
| Filesystem.UnknownTypeSourceRejected | domain.go:1498 | As written, a filesystem of type "nfs" with a `<source>` ends in the engine's "did not consume" error. |
| Filesystem.SourceOutcome | domain.go:1482-1499 | The corrected source hook consumes its element on every path. |
| Filesystem.UnknownTypeSourceIgnored | domain.go:1498 | With the skip, the source of an unknown type decodes to a source with no member. |
| Rng.KindOf | domain.go:1697-1709 | `model` selects a backend exactly when it is that backend's name. |
| Rng.FirstKind | domain.go:1678-1691 | The encoder prefers Random over EGD; none exactly when neither is set. |
| Rng.MarshalBackend | domain.go:1678-1691 | Writes nothing when no backend is set. Otherwise it appends the chosen backend's `model` and writes that backend. |
| Rng.DecodeBackend | domain.go:1693-1713 | A known model sets that backend from the engine and keeps the other. A missing or unknown model leaves the receiver unchanged. Engine errors pass through. |
| Rng.BackendRoundTrip | domain.go:1678-1713 | Decoding what was encoded, followed by whatever attributes the engine adds, into an empty backend, gives the chosen backend alone, with its element consumed. |
| Rng.BackendRoundTripOnly | domain.go:1678-1713 | A backend with exactly one member comes back unchanged. |
| Rng.DecodeAtMostOne | domain.go:1693-1713 | Decoded into an empty backend, at most one backend is set. |
| Rng.BackendOutcomeAsWritten | domain.go:1693-1713 | The hook as written consumes its element exactly when `model` is present. |
| Rng.MissingModelRejected | domain.go:1695-1697 | As written, a backend without `model` ends in the engine's "did not consume" error. |
| Rng.BackendOutcome | domain.go:1693-1713 | The corrected hook consumes its element on every path. |
| Rng.MissingModelIgnored | domain.go:1695-1697 | With the skip, a missing model leaves the receiver unchanged, as an unknown model does. |
| ScsiSource.MarshalSource | domain.go:1727-1737 | The host wins and adds no attribute. The iSCSI target adds `protocol="iscsi"`. Nothing is written when neither is set. |
| ScsiSource.DecodeSource | domain.go:1739-1757 | No `protocol` decodes a host. `protocol="iscsi"` decodes an iSCSI target. Any other protocol leaves the receiver unchanged. |
| ScsiSource.SourceRoundTrip | domain.go:1727-1757 | Decoding what was encoded, followed by whatever attributes the engine adds (none named `protocol` for a host), into an empty source, gives the chosen member alone. |
| ScsiSource.DecodeAtMostOne | domain.go:1739-1757 | Decoded into an empty source, at most one member is set. |
| Hostdev.KindOf | domain.go:1906-1978 | A payload is selected exactly for its (mode, type) pair: subsystem×{scsi, scsi_host, usb, pci, mdev} or capabilities×{storage, misc, net}. |
| Hostdev.FirstKind | domain.go:1801-1895 | The encoder's order is SCSI, SCSIHost, USB, PCI, MDev, Storage, Misc, Net. |
| Hostdev.MarshalHostdev | domain.go:1801-1895 | The element is "hostdev". The first payload appends its `mode` and `type` and is written beside the common fields. Without a payload, neither attribute is written. |
| Hostdev.DecodeHostdev | domain.go:1897-1990 | A missing `mode`, then a missing `type`, are errors with the source's messages. Otherwise the receiver is replaced: the wire's common fields, plus the selected payload and no other. |
| Hostdev.DecodeAtMostOne | domain.go:1897-1990 | A decoded hostdev never has two payloads. |
| Hostdev.HostdevRoundTrip | domain.go:1801-1990 | Decoding what was encoded, followed by whatever attributes the engine adds, gives the common fields and the chosen payload alone. |
| Hostdev.HostdevRoundTripOnly | domain.go:1801-1990 | A hostdev with exactly one payload comes back unchanged. |
| Hostdev.NoPayloadUnreadable | domain.go:1891-1901 | A hostdev with no payload is written without `mode`, and what is written is then refused by the decoder. |
| CcwCapability.ChildTokens | node_device.go:266-294 | An absent value writes nothing. A present one writes a `<name>` element whose text reads back (0x dropped, base 16) to the value. |
| CcwCapability.MarshalCCW | node_device.go:266-294 | The given start element, then cssid, ssid and devno children (0x%x, 0x%x, 0x%04x) for the present fields only, then the end. |
| CcwCapability.UnmarshalCCW | node_device.go:296-341 | The token loop computes `ScanCCW`. |
| CcwCapability.ScanChild | node_device.go:296-341 | A child as the encoder writes it sets its own field and nothing else. |
| CcwCapability.CCWRoundTrip | node_device.go:266-341 | The loop reads back from the encoder's children exactly the capability written. |
| CcwCapability.EmptyChildRejected | node_device.go:316-320 | A known child not followed by text is refused, naming the child. |
| CcwCapability.UnknownChildSkipsNext | node_device.go:308-314 | An unknown child start and the token after it are dropped, even when that token is a known child's start. |
| NodeDevice.SubKindOf | node_device.go:349-374 | `type` selects a sub-capability member exactly for its type name. |
| NodeDevice.FirstSubKind | node_device.go:379-402 | The encoder's order is VirtFunctions, PhysFunction, MDevTypes, Bridge. |
| NodeDevice.MarshalSub | node_device.go:379-402 | Writes nothing when no member is set. Otherwise it appends the chosen member's `type` and writes that member. |
| NodeDevice.DecodeSub | node_device.go:343-377 | A missing `type` is an error with the source's message. A known type replaces that member and keeps the others. An unknown one leaves the receiver unchanged. |
| NodeDevice.SubRoundTrip | node_device.go:343-402 | Decoding what was encoded, followed by whatever attributes the engine adds, into an empty sub-capability, gives the chosen member alone. |
| NodeDevice.SubRoundTripOnly | node_device.go:343-402 | A sub-capability with exactly one member comes back unchanged. |
| NodeDevice.SubAtMostOne | node_device.go:343-377 | Decoded into an empty sub-capability, at most one member is set. |
| NodeDevice.CapKindOf | node_device.go:410-477 | `type` selects a capability member exactly for its type name. |
| NodeDevice.FirstCapKind | node_device.go:482-540 | The encoder's order is PCI, System, USB, USBDevice, Net, SCSI, SCSIHost, Storage, DRM, CCW, MDev. |
| NodeDevice.MarshalCap | node_device.go:482-540 | Writes nothing when no member is set. Otherwise it appends the chosen member's `type` and writes that member. |
| NodeDevice.DecodeCap | node_device.go:404-480 | A missing `type` is an error with the source's message. A known type replaces that member and keeps the others. An unknown one leaves the receiver unchanged. |
| NodeDevice.CapRoundTrip | node_device.go:404-540 | Each member's type string is the one its decoder maps back to it. Decoding what was encoded, followed by whatever attributes the engine adds, gives the chosen member alone. |
| NodeDevice.CapRoundTripOnly | node_device.go:404-540 | A capability with exactly one member comes back unchanged. |
| NodeDevice.CapAtMostOne | node_device.go:404-480 | Decoded into an empty capability, at most one member is set. |

## Findings

| source | as written | input that shows it | evidently intended | confidence | as-written member | corrected member |
|---|---|---|---|---|---|---|
| domain.go:2404 | An address of unknown `type` returns nil without reading its element. The engine then fails with "did not consume entire <address> element". | `<address type="unassigned"/>` | Skip the element and leave the address empty, as the empty-type branch at domain.go:2370-2373 does. | medium (rests on the engine's consumption check); not executed | Address.UnknownTypeRejected | Address.UnknownTypeIgnored |
| domain.go:1695-1697 | An RNG backend without `model` returns nil without reading its element, which the engine turns into an error. | `<backend type="tcp">…</backend>` | Skip the element, as the unknown-model branch does at domain.go:1711. | medium; not executed | Rng.MissingModelRejected | Rng.MissingModelIgnored |
| domain.go:1498 | A filesystem source with no member allocated (parent `type` unknown) returns nil without reading `<source>`, which the engine turns into an error. | `<filesystem type="nfs"><source/></filesystem>` | Skip the element, leaving a source with no member. | low (an unknown filesystem type may be meant to fail, but not with this message); not executed | Filesystem.UnknownTypeSourceRejected | Filesystem.UnknownTypeSourceIgnored |

## Left out

- Go's `encoding/xml` engine (tokenizer, reflection-driven encoding of payload structs, `MarshalIndent` layout, namespaces, `EncodeElement`, `DecodeElement`). Payloads are opaque `Body` values, and `DecodeElement` is a function parameter. Only the engine's check that a hook consumed its element is modelled (`Xml.AfterHook`). `d.Skip()` itself is modelled only as "the element is consumed".
- The tag-only struct declarations and the one-line `Marshal`/`Unmarshal` wrappers. They hold no decision logic.
- The tests (`xml_test.go`, `domain_test.go`). They clone and read files, and their fixtures do not match the current structs.
- `ParseUint` with base 0 refuses the digit-separating underscores Go accepts. Every other base-0 rule (0b, 0o, 0x prefixes, leading-0 octal) is modelled.
- Go's `uint` is taken to be 64 bits wide. `uint(val)` is then the identity.
- Floating-point fields (for example the PCI Express link speed). No hook touches them.
- Update in place: receivers are values passed in as `from` and returned. Aliasing between a receiver and other data is not modelled. On an error the model returns only the error, while Go leaves the receiver partly updated. The cases are:
  - an address member is allocated before its attribute loop fails (domain.go:2362-2405);
  - CCW fields set before a later ParseUint fails stay set (node_device.go:334-340);
  - `Source` is replaced before the filesystem's DecodeElement runs (domain.go:1545).
- The errors of `EncodeToken` in every hand-written token encoder: the nine address members (domain.go:2044-2127), the PCI target (domain.go:1284-1301) and the CCW capability (node_device.go:266-294). The source ignores them and returns nil.
- Filesystem.DecodeFilesystem: when both the other fields and the `<source>` child fail to decode, the engine reports whichever comes first in the document. The model always reports the other fields' error, because it does not model the order of children.
- Address.MarshalAddress: the attributes of the chosen member are stated through `MemberAttrs`. Their per-field contents are stated by the per-member round-trip lemmas instead of in this contract.
- The token stream is not required to be well formed. So `UnexpectedEnd` (a start tag as the last token of an element) can arise in the model, though Go's tokenizer never produces that stream.
