/** The part of the CycloneDX object model the BOM builder touches. The
    library's repositories of properties and external references are
    JavaScript `Set`s of freshly created objects, so every `add` appends a new
    entry: they are sequences here. Hashes are a `Map` keyed by algorithm.
    Property names and boolean property values come from the project's
    properties module and are kept symbolic. */
module CdxModels {
  import opened Wrappers

  datatype ComponentType =
    Application | Framework | Library | Container | OperatingSystem | Device | Firmware | File

  datatype HashAlgorithm = MD5 | SHA1 | SHA256 | SHA384 | SHA512 | SHA3_256 | SHA3_512

  datatype ExternalReferenceType = Distribution | Vcs | Website | IssueTracker | Other

  datatype PropertyName =
    PackageInstallPath | PackageDevelopment | PackageExtraneous | PackagePrivate | PackageBundled

  /** A property value: free text, or one of the two boolean words. */
  datatype PropertyValue = Text(text: string) | BoolTrue | BoolFalse

  datatype Property = Property(name: PropertyName, value: PropertyValue)

  datatype ExternalReference = ExternalReference(url: string, kind: ExternalReferenceType, comment: string)

  /** A package URL as the purl factory returns it. */
  datatype Purl = Purl(
    purlType: string,
    namespace: Option<string>,
    name: string,
    version: Option<string>,
    qualifiers: Option<map<string, string>>,
    subpath: Option<string>)

  datatype Tool = Tool(vendor: Option<string>, name: string, version: Option<string>)

  /** Everything a component holds except its nested child components. */
  datatype ComponentValue = ComponentValue(
    componentType: Option<ComponentType>,
    name: string,
    group: Option<string>,
    version: Option<string>,
    description: Option<string>,
    properties: seq<Property>,
    externalReferences: seq<ExternalReference>,
    hashes: map<HashAlgorithm, string>,
    purl: Option<Purl>,
    bomRef: Option<string>)

  const DummyPrefix := "DummyComponent."

  /** The placeholder that stands in for a component whose build failed:
      name and bom-ref are both `DummyComponent.<name>`, the description says
      which gap it fills, and it carries nothing else. */
  function DummyValue(componentType: Option<ComponentType>, name: string): (v: ComponentValue)
    ensures v.name == DummyPrefix + name && v.bomRef == Some(v.name)
    ensures v.componentType == componentType
    ensures v.properties == [] && v.externalReferences == [] && v.hashes == map[]
    ensures v.purl == None && v.group == None && v.version == None
  {
    ComponentValue(
      componentType, DummyPrefix + name, None, None,
      Some("This is a dummy component \"" + name + "\" that fills the gap where the actual built failed."),
      [], [], map[], None, Some(DummyPrefix + name))
  }

  class Component {
    var componentType: Option<ComponentType>
    var name: string
    var group: Option<string>
    var version: Option<string>
    var description: Option<string>
    var properties: seq<Property>
    var externalReferences: seq<ExternalReference>
    var hashes: map<HashAlgorithm, string>
    var purl: Option<Purl>
    var bomRef: Option<string>
    /** nested child components */
    var components: set<Component>

    /** The component's own data; its nested children are not part of it. */
    function Value(): ComponentValue
      reads this`componentType, this`name, this`group, this`version, this`description
      reads this`properties, this`externalReferences, this`hashes, this`purl, this`bomRef
    {
      ComponentValue(componentType, name, group, version, description,
                     properties, externalReferences, hashes, purl, bomRef)
    }

    /** A component as the component builder creates it: no children yet. */
    constructor FromValue(v: ComponentValue)
      ensures Value() == v && components == {}
    {
      componentType, name, group, version, description := v.componentType, v.name, v.group, v.version, v.description;
      properties, externalReferences, hashes := v.properties, v.externalReferences, v.hashes;
      purl, bomRef := v.purl, v.bomRef;
      components := {};
    }

    /** `new DummyComponent(type, name)` */
    constructor Dummy(componentType: Option<ComponentType>, name: string)
      ensures Value() == DummyValue(componentType, name) && components == {}
    {
      var v := DummyValue(componentType, name);
      this.componentType, this.name, group, version, description := v.componentType, v.name, v.group, v.version, v.description;
      properties, externalReferences, hashes := v.properties, v.externalReferences, v.hashes;
      purl, bomRef := v.purl, v.bomRef;
      components := {};
    }
  }

  /** The document: tool metadata, an optional timestamp and the top-level
      component collection. */
  class Bom {
    var tools: seq<Tool>
    var timestamp: Option<int>
    var components: set<Component>

    constructor ()
      ensures tools == [] && timestamp == None && components == {}
    {
      tools, timestamp, components := [], None, {};
    }
  }
}
