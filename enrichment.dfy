/** The enrichment rules of `BomBuilder.makeComponent`, as functions of the
    npm-ls record: which properties, external references and hashes a
    component gains, how its purl is shortened and how its bom-ref is chosen.
    The method that applies them in place is `BomBuilding.BomBuilder.MakeComponent`. */
module Enrichment {
  import opened Wrappers
  import opened JsValues
  import opened Encoding
  import opened CdxModels

  // ------------------------------------------------------------ legacy flags

  /** `(data.dev ?? data._development) === true` */
  predicate IsDev(data: Record) {
    LegacyFlag(data, "dev", "_development")
  }

  /** `(data.inBundle ?? data._inBundle) === true` */
  predicate IsBundled(data: Record) {
    LegacyFlag(data, "inBundle", "_inBundle")
  }

  /** `data.resolved ?? data._resolved` */
  function Resolved(data: Record): JsValue {
    LegacyField(data, "resolved", "_resolved")
  }

  /** `data.integrity ?? data._integrity` */
  function Integrity(data: Record): JsValue {
    LegacyField(data, "integrity", "_integrity")
  }

  // -------------------------------------------------------------- properties

  function FlagProperty(flag: bool, name: PropertyName): seq<Property> {
    if flag then [Property(name, BoolTrue)] else []
  }

  /** The five values of a record the property rules look at. */
  datatype PackageFlags = PackageFlags(path: JsValue, dev: bool, extraneous: bool, isPrivate: bool, bundled: bool)

  function FlagsOf(data: Record): PackageFlags {
    PackageFlags(Get(data, "path"), IsDev(data), IsStrictTrue(Get(data, "extraneous")),
                 IsStrictTrue(Get(data, "private")), IsBundled(data))
  }

  function InstallPathProperty(path: JsValue): seq<Property> {
    match path
    case Str(p) => [Property(PackageInstallPath, Text(p))]
    case _ => []
  }

  /** The properties for the given flags, in the order they are added:
      install path, development, extraneous, private, bundled. */
  function PropertiesFor(f: PackageFlags): seq<Property> {
    InstallPathProperty(f.path)
    + FlagProperty(f.dev, PackageDevelopment)
    + FlagProperty(f.extraneous, PackageExtraneous)
    + FlagProperty(f.isPrivate, PackagePrivate)
    + FlagProperty(f.bundled, PackageBundled)
  }

  /** The properties a built component gains from its record. */
  function AddedProperties(data: Record): seq<Property> {
    PropertiesFor(FlagsOf(data))
  }

  /** One `if (flag) properties.add(...)` step. */
  function WithFlag(props: seq<Property>, flag: bool, name: PropertyName): seq<Property> {
    if flag then props + [Property(name, BoolTrue)] else props
  }

  /** The property additions applied one after another to existing properties. */
  function WithPackageProperties(props: seq<Property>, f: PackageFlags): seq<Property> {
    WithFlag(
      WithFlag(
        WithFlag(
          WithFlag(props + InstallPathProperty(f.path), f.dev, PackageDevelopment),
          f.extraneous, PackageExtraneous),
        f.isPrivate, PackagePrivate),
      f.bundled, PackageBundled)
  }

  lemma WithFlagAppends(props: seq<Property>, extra: seq<Property>, flag: bool, name: PropertyName)
    ensures WithFlag(props + extra, flag, name) == props + (extra + FlagProperty(flag, name))
  {
    if flag {
      assert props + extra + [Property(name, BoolTrue)] == props + (extra + [Property(name, BoolTrue)]);
    } else {
      assert extra + [] == extra;
    }
  }

  /** Adding the properties one by one appends `PropertiesFor` to what was there. */
  lemma WithPackagePropertiesAppends(props: seq<Property>, f: PackageFlags)
    ensures WithPackageProperties(props, f) == props + PropertiesFor(f)
  {
    var p0 := InstallPathProperty(f.path);
    var p1 := FlagProperty(f.dev, PackageDevelopment);
    var p2 := FlagProperty(f.extraneous, PackageExtraneous);
    var p3 := FlagProperty(f.isPrivate, PackagePrivate);
    WithFlagAppends(props, p0, f.dev, PackageDevelopment);
    WithFlagAppends(props, p0 + p1, f.extraneous, PackageExtraneous);
    WithFlagAppends(props, p0 + p1 + p2, f.isPrivate, PackagePrivate);
    WithFlagAppends(props, p0 + p1 + p2 + p3, f.bundled, PackageBundled);
  }

  /** Membership in the added properties, rule by rule. */
  lemma PropertiesForRules(f: PackageFlags)
    ensures var r := PropertiesFor(f);
      && (forall p :: p in r ==> p.value != BoolFalse)
      && ((exists p :: p in r && p.name == PackageInstallPath) <==> f.path.Str?)
      && (f.path.Str? ==> Property(PackageInstallPath, Text(f.path.s)) in r)
      && (Property(PackageDevelopment, BoolTrue) in r <==> f.dev)
      && (Property(PackageExtraneous, BoolTrue) in r <==> f.extraneous)
      && (Property(PackagePrivate, BoolTrue) in r <==> f.isPrivate)
      && (Property(PackageBundled, BoolTrue) in r <==> f.bundled)
  {
  }

  /** The install-path property is added exactly when `path` is a string;
      development, extraneous, private and bundled are each added exactly
      when their flag is strictly `true`; no false-valued property is ever
      added. */
  lemma AddedPropertiesRules(data: Record)
    ensures var r := AddedProperties(data);
      && (forall p :: p in r ==> p.value != BoolFalse)
      && ((exists p :: p in r && p.name == PackageInstallPath) <==> Get(data, "path").Str?)
      && (Get(data, "path").Str? ==> Property(PackageInstallPath, Text(Get(data, "path").s)) in r)
      && (Property(PackageDevelopment, BoolTrue) in r <==> IsDev(data))
      && (Property(PackageExtraneous, BoolTrue) in r <==> IsStrictTrue(Get(data, "extraneous")))
      && (Property(PackagePrivate, BoolTrue) in r <==> IsStrictTrue(Get(data, "private")))
      && (Property(PackageBundled, BoolTrue) in r <==> IsBundled(data))
  {
    PropertiesForRules(FlagsOf(data));
  }

  /** No property name is added twice. */
  predicate DistinctNames(ps: seq<Property>) {
    forall i, j :: 0 <= i < j < |ps| ==> ps[i].name != ps[j].name
  }

  lemma DistinctNamesConcat(a: seq<Property>, b: seq<Property>)
    requires DistinctNames(a) && DistinctNames(b)
    requires forall p, q :: p in a && q in b ==> p.name != q.name
    ensures DistinctNames(a + b)
  {
    forall i, j | 0 <= i < j < |a + b|
      ensures (a + b)[i].name != (a + b)[j].name
    {
      if j < |a| {
      } else if i < |a| {
        assert (a + b)[i] in a && (a + b)[j] in b;
      } else {
        assert (a + b)[i] == b[i - |a|] && (a + b)[j] == b[j - |a|];
      }
    }
  }

  lemma AddedPropertiesDistinct(data: Record)
    ensures DistinctNames(AddedProperties(data))
  {
    var f := FlagsOf(data);
    var p0 := InstallPathProperty(f.path);
    var p1 := FlagProperty(f.dev, PackageDevelopment);
    var p2 := FlagProperty(f.extraneous, PackageExtraneous);
    var p3 := FlagProperty(f.isPrivate, PackagePrivate);
    var p4 := FlagProperty(f.bundled, PackageBundled);
    DistinctNamesConcat(p0, p1);
    DistinctNamesConcat(p0 + p1, p2);
    DistinctNamesConcat(p0 + p1 + p2, p3);
    DistinctNamesConcat(p0 + p1 + p2 + p3, p4);
  }

  // -------------------------------------------------------- external references

  const ResolvedComment := "as detected from npm-ls property \"resolved\""

  /** A distribution reference for a `resolved` string the ignore pattern
      does not match; nothing otherwise. */
  function DistributionReferences(data: Record, ignoreResolved: string -> bool): seq<ExternalReference> {
    match Resolved(data)
    case Str(url) =>
      if ignoreResolved(url) then [] else [ExternalReference(url, Distribution, ResolvedComment)]
    case _ => []
  }

  /** At most one reference is added; one is added exactly when `resolved`
      (or `_resolved`) is a string the ignore pattern does not match, and it
      is a distribution reference to that very URL. */
  lemma DistributionReferenceRules(data: Record, ignoreResolved: string -> bool)
    ensures var r := DistributionReferences(data, ignoreResolved);
      && |r| <= 1
      && (r != [] <==> Resolved(data).Str? && !ignoreResolved(Resolved(data).s))
      && (forall ref :: ref in r ==> ref.kind == Distribution && ref.url == Resolved(data).s)
  {
  }

  // ------------------------------------------------------------------ hashes

  const Sha512Prefix := "sha512-"

  /** The capture of the sha512 integrity pattern: the base64 payload after
      the `sha512-` prefix, when the whole rest is padded base64. */
  function Sha512Payload(integrity: string): Option<string> {
    if |integrity| >= |Sha512Prefix| && integrity[..|Sha512Prefix|] == Sha512Prefix
       && IsBase64(integrity[|Sha512Prefix|..])
    then Some(integrity[|Sha512Prefix|..])
    else None
  }

  /** The pattern matches exactly the strings `sha512-<payload>` with a
      padded base64 payload, and captures that payload. */
  lemma Sha512PayloadShape(integrity: string)
    ensures Sha512Payload(integrity).Some? <==>
              exists payload :: integrity == Sha512Prefix + payload && IsBase64(payload)
    ensures Sha512Payload(integrity).Some? ==>
              integrity == Sha512Prefix + Sha512Payload(integrity).value
  {
    if Sha512Payload(integrity).Some? {
      assert integrity == Sha512Prefix + integrity[|Sha512Prefix|..];
    } else {
      forall payload | integrity == Sha512Prefix + payload
        ensures !IsBase64(payload)
      {
        assert payload == integrity[|Sha512Prefix|..];
      }
    }
  }

  /** The hex digest taken from an integrity value, if it has the sha512 shape. */
  function Sha512Hex(integrity: JsValue): Option<string> {
    if integrity.Str? && Sha512Payload(integrity.s).Some?
    then Some(HexEncode(Base64Decode(Sha512Payload(integrity.s).value)))
    else None
  }

  /** The hash map after the integrity rule: SHA-512 is set (or replaced)
      when the integrity has the sha512 shape, and nothing else changes. */
  function HashesAfter(hashes: map<HashAlgorithm, string>, data: Record): map<HashAlgorithm, string> {
    match Sha512Hex(Integrity(data))
    case Some(hex) => hashes[SHA512 := hex]
    case None => hashes
  }

  /** Only the SHA-512 entry is ever touched: it is set to the digest when
      the integrity has the sha512 shape, and otherwise the map is unchanged. */
  lemma HashesAfterRules(hashes: map<HashAlgorithm, string>, data: Record)
    ensures var r := HashesAfter(hashes, data);
      && (Sha512Hex(Integrity(data)).None? ==> r == hashes)
      && (Sha512Hex(Integrity(data)).Some? ==> SHA512 in r && r[SHA512] == Sha512Hex(Integrity(data)).value)
      && r.Keys - {SHA512} == hashes.Keys - {SHA512}
      && (forall a :: a in hashes && a != SHA512 ==> a in r && r[a] == hashes[a])
  {
  }

  /** An integrity string `sha512-<base64 of some bytes>` stores the hex
      encoding of exactly those bytes. */
  lemma IntegrityHashOfEncodedBytes(hashes: map<HashAlgorithm, string>, data: Record, digest: seq<Byte>)
    requires Integrity(data) == Str(Sha512Prefix + Base64Encode(digest))
    ensures SHA512 in HashesAfter(hashes, data)
    ensures HashesAfter(hashes, data)[SHA512] == HexEncode(digest)
  {
    Base64RoundTrip(digest);
    var s := Sha512Prefix + Base64Encode(digest);
    Sha512PayloadShape(s);
    assert s[..|Sha512Prefix|] == Sha512Prefix && s[|Sha512Prefix|..] == Base64Encode(digest);
  }

  /** The stored digest is well-formed hex and decodes to the bytes the
      base64 payload decodes to. */
  lemma StoredHashDecodesToPayload(integrity: JsValue)
    requires Sha512Hex(integrity).Some?
    ensures IsHex(Sha512Hex(integrity).value)
    ensures HexDecode(Sha512Hex(integrity).value) == Base64Decode(Sha512Payload(integrity.s).value)
  {
    HexRoundTrip(Base64Decode(Sha512Payload(integrity.s).value));
  }

  /** An integrity string in another algorithm (any string that does not
      start with `sha512-`) leaves the hashes as they were. */
  lemma OtherAlgorithmLeavesHashes(hashes: map<HashAlgorithm, string>, data: Record)
    requires Integrity(data).Str?
    requires |Integrity(data).s| < |Sha512Prefix| || Integrity(data).s[..|Sha512Prefix|] != Sha512Prefix
    ensures HashesAfter(hashes, data) == hashes
  {
    Sha512PayloadShape(Integrity(data).s);
  }

  // -------------------------------------------------------------------- purl

  /** `makePurl`: the factory's purl, with qualifiers and subpath removed in
      short-purl mode. */
  function ShortenPurl(made: Option<Purl>, shortPurls: bool): Option<Purl> {
    match made
    case None => None
    case Some(p) => if shortPurls then Some(p.(qualifiers := None, subpath := None)) else made
  }

  /** Short-purl mode removes exactly the qualifiers and the subpath and
      keeps everything else; without it the factory's purl is kept. A missing
      purl stays missing, and shortening twice is shortening once. */
  lemma ShortenPurlRules(made: Option<Purl>, shortPurls: bool)
    ensures var r := ShortenPurl(made, shortPurls);
      && (r.Some? <==> made.Some?)
      && (!shortPurls ==> r == made)
      && (shortPurls && made.Some? ==>
            r.value.qualifiers == None && r.value.subpath == None
            && r.value.(qualifiers := made.value.qualifiers, subpath := made.value.subpath) == made.value)
      && ShortenPurl(r, shortPurls) == r
  {
  }

  // ----------------------------------------------------------------- bom-ref

  /** `value || "-"` on an optional string: empty and missing both give `-`. */
  function OrDash(v: Option<string>): (r: string)
    ensures r != ""
    ensures v.Some? && v.value != "" ==> r == v.value
    ensures v.None? || v.value == "" ==> r == "-"
  {
    if v.Some? && v.value != "" then v.value else "-"
  }

  /** The bom-ref of a built component: the record's `_id` when that is a
      non-empty string, else `group/name@version` with `-` for an empty or
      missing group or version. */
  function BomRef(id: JsValue, group: Option<string>, name: string, version: Option<string>): string {
    if id.Str? && id.s != "" then id.s
    else OrDash(group) + "/" + name + "@" + OrDash(version)
  }

  /** A non-empty `_id` is the bom-ref, whatever the component's identity. */
  lemma BomRefPrefersId(id: string, group: Option<string>, name: string, version: Option<string>)
    requires id != ""
    ensures BomRef(Str(id), group, name, version) == id
  {
  }

  /** Without a usable `_id` the bom-ref is never empty and has the form
      `<group>/<name>@<version>`. */
  lemma BomRefFallbackShape(id: JsValue, group: Option<string>, name: string, version: Option<string>)
    requires !(id.Str? && id.s != "")
    ensures var r := BomRef(id, group, name, version);
            && |r| >= |name| + 4
            && r[..|OrDash(group)|] == OrDash(group)
            && r[|OrDash(group)|] == '/'
            && r[|OrDash(group)| + 1..|OrDash(group)| + 1 + |name|] == name
            && r[|OrDash(group)| + 1 + |name|] == '@'
            && r[|OrDash(group)| + 2 + |name|..] == OrDash(version)
  {
  }

  /** Two sequences joined by a separator that occurs in neither left part
      split back into the same parts. */
  lemma {:induction false} SplitAtFirst(a1: string, b1: string, a2: string, b2: string, sep: char)
    requires sep !in a1 && sep !in a2
    requires a1 + [sep] + b1 == a2 + [sep] + b2
    ensures a1 == a2 && b1 == b2
  {
    var s := a1 + [sep] + b1;
    // the separator sits at both |a1| and |a2|, and no earlier position holds it
    assert s[|a1|] == sep && s[|a2|] == sep;
    assert forall i :: 0 <= i < |a1| ==> s[i] == a1[i];
    assert forall i :: 0 <= i < |a2| ==> s[i] == a2[i];
    assert |a1| == |a2|;
    assert a1 == s[..|a1|] == a2;
    assert b1 == s[|a1| + 1..] == b2;
  }

  /** The fallback bom-ref identifies the component: for groups without `/`
      and names without `@`, equal bom-refs mean equal (dash-normalised)
      group, equal name and equal (dash-normalised) version. */
  lemma FallbackBomRefInjective(
    group1: Option<string>, name1: string, version1: Option<string>,
    group2: Option<string>, name2: string, version2: Option<string>)
    requires '/' !in OrDash(group1) && '/' !in OrDash(group2)
    requires '@' !in name1 && '@' !in name2
    requires BomRef(Undefined, group1, name1, version1) == BomRef(Undefined, group2, name2, version2)
    ensures OrDash(group1) == OrDash(group2) && name1 == name2 && OrDash(version1) == OrDash(version2)
  {
    var g1, g2 := OrDash(group1), OrDash(group2);
    var t1, t2 := name1 + "@" + OrDash(version1), name2 + "@" + OrDash(version2);
    assert g1 + "/" + name1 + "@" + OrDash(version1) == g1 + ['/'] + t1;
    assert g2 + "/" + name2 + "@" + OrDash(version2) == g2 + ['/'] + t2;
    SplitAtFirst(g1, t1, g2, t2, '/');
    assert t1 == name1 + ['@'] + OrDash(version1);
    assert t2 == name2 + ['@'] + OrDash(version2);
    SplitAtFirst(name1, OrDash(version1), name2, OrDash(version2), '@');
  }

  // -------------------------------------------------------------- enrichment

  /** The component after the property, reference and hash rules, as the purl
      factory sees it. */
  function BeforePurl(built: ComponentValue, data: Record, ignoreResolved: string -> bool): ComponentValue {
    built.(properties := built.properties + AddedProperties(data),
           externalReferences := built.externalReferences + DistributionReferences(data, ignoreResolved),
           hashes := HashesAfter(built.hashes, data))
  }

  /** Enrichment before the purl only adds: the builder's identity fields
      are kept, its properties and references stay in front of the added
      ones (which `AddedPropertiesRules` and `DistributionReferenceRules`
      describe), and hashes of other algorithms are kept. */
  lemma BeforePurlExtends(built: ComponentValue, data: Record, ignoreResolved: string -> bool)
    ensures var v := BeforePurl(built, data, ignoreResolved);
      && v.componentType == built.componentType && v.name == built.name
      && v.group == built.group && v.version == built.version
      && v.description == built.description && v.purl == built.purl
      && |v.properties| >= |built.properties|
      && v.properties[..|built.properties|] == built.properties
      && |v.externalReferences| >= |built.externalReferences|
      && v.externalReferences[..|built.externalReferences|] == built.externalReferences
      && (forall a :: a in built.hashes && a != SHA512 ==> a in v.hashes && v.hashes[a] == built.hashes[a])
  {
    var v := BeforePurl(built, data, ignoreResolved);
    assert v.properties[..|built.properties|] == built.properties;
    assert v.externalReferences[..|built.externalReferences|] == built.externalReferences;
    HashesAfterRules(built.hashes, data);
  }

  /** Whatever the record holds, a component's bom-ref is never empty. */
  lemma BomRefNonEmpty(id: JsValue, group: Option<string>, name: string, version: Option<string>)
    ensures BomRef(id, group, name, version) != ""
  {
    if !(id.Str? && id.s != "") {
      BomRefFallbackShape(id, group, name, version);
    }
  }

  /** A bom-ref made by the fallback rule always holds a `/`, so it never
      coincides with the placeholder root's `DummyComponent.RootComponent`. */
  lemma FallbackBomRefNeverDummyRoot(id: JsValue, group: Option<string>, name: string, version: Option<string>,
                                     componentType: Option<ComponentType>)
    requires !(id.Str? && id.s != "")
    ensures BomRef(id, group, name, version) != DummyValue(componentType, "RootComponent").bomRef.value
  {
    var r := BomRef(id, group, name, version);
    var d := DummyValue(componentType, "RootComponent").bomRef.value;
    BomRefFallbackShape(id, group, name, version);
    assert r[|OrDash(group)|] == '/';
    assert forall i :: 0 <= i < |d| ==> d[i] != '/';
  }
}
