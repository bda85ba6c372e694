/** `BomBuilder`: fetching the npm-ls tree under the error-tolerance policy,
    turning one record into an enriched component, and assembling the BOM.
    The collaborators whose code is not part of this model (component
    builder, purl factory, tool builder, the ignore pattern for `resolved`)
    are function-valued constants of the builder. */
module BomBuilding {
  import opened Wrappers
  import opened JsValues
  import opened Encoding
  import opened CdxModels
  import opened Enrichment

  datatype DependencyType = Dev | Optional | Peer

  /** `BomBuilderOptions`; an option left `undefined` reads as `false` or as
      the empty set, as the source's truthiness tests do. */
  datatype Options = Options(
    ignoreNpmErrors: bool,
    metaComponentType: Option<ComponentType>,
    packageLockOnly: bool,
    omitDependencyTypes: set<DependencyType>,
    reproducible: bool,
    flattenComponents: bool,
    shortPURLs: bool)

  /** What `makeComponent` returns: `false` (omitted by policy), `undefined`
      (the component builder failed), or a component. */
  datatype MadeComponent = Omitted | Broken | Made(component: Component)

  type Bytes = seq<Byte>

  /** How the `npm ls` run ended: its standard output, or the thrown error
      with exit status, signal and whatever output was captured. */
  datatype RunOutcome =
    | Exited(output: Bytes)
    | RunFailed(status: Option<nat>, signal: Option<string>, stdout: Option<Bytes>, stderr: Bytes)

  /** What parsing the output as JSON gives: the record, or the parser's error. */
  datatype ParseOutcome = Parsed(data: Record) | Unparsable(parseError: string)

  /** The errors `fetchNpmLs` throws; a parse failure carries the parser's
      error as its cause. */
  datatype FetchError =
    | NpmLsExited(message: string)
    | ResponseUnparsable(message: string, cause: string)

  const ExitedPrefix := "npm-ls exited with errors: "
  const ParseFailedMessage := "failed to parse pnpm-ls response"

  predicate IsDigit(c: char) { '0' <= c <= '9' }

  /** The decimal text of an exit status, as a template literal prints it. */
  function DecimalText(n: nat): (r: string)
    ensures |r| > 0
    ensures forall i :: 0 <= i < |r| ==> IsDigit(r[i])
    ensures r[0] == '0' ==> n == 0
  {
    if n < 10 then [('0' as int + n) as char]
    else DecimalText(n / 10) + [('0' as int + n % 10) as char]
  }

  /** The number a run of decimal digits denotes, read independently of
      `DecimalText`, from the last digit backwards. */
  function DecimalValue(s: string): nat
    requires forall i :: 0 <= i < |s| ==> IsDigit(s[i])
  {
    if s == [] then 0
    else
      assert IsDigit(s[|s| - 1]);
      10 * DecimalValue(s[..|s| - 1]) + (s[|s| - 1] as int - '0' as int)
  }

  /** The decimal text of a status denotes that status. */
  lemma {:induction false} DecimalTextDenotes(n: nat)
    ensures DecimalValue(DecimalText(n)) == n
  {
    var r := DecimalText(n);
    if n >= 10 {
      DecimalTextDenotes(n / 10);
      assert r[..|r| - 1] == DecimalText(n / 10);
    }
  }

  /** `status ?? "noStatus"` */
  function StatusText(status: Option<nat>): string {
    match status
    case Some(n) => DecimalText(n)
    case None => "noStatus"
  }

  /** `signal ?? "noSignal"` */
  function SignalText(signal: Option<string>): string {
    signal.GetOr("noSignal")
  }

  /** The message of the error for a failed run. */
  function ExitMessage(status: Option<nat>, signal: Option<string>): string {
    ExitedPrefix + StatusText(status) + " " + SignalText(signal)
  }

  /** The message says `noStatus` exactly when the run reported no status:
      a reported status prints as digits only. */
  lemma StatusTextNamesMissingStatus(status: Option<nat>)
    ensures StatusText(status) == "noStatus" <==> status.None?
  {
    if status.Some? {
      var r := DecimalText(status.value);
      assert IsDigit(r[0]);
      assert r != "noStatus";
    }
  }

  /** The bytes handed to the parser: the output of a clean run, or the
      captured standard output of a failed one (empty when there was none). */
  function OutputBytes(run: RunOutcome): (b: Bytes)
    ensures run.Exited? ==> b == run.output
    ensures run.RunFailed? && run.stdout.None? ==> b == []
    ensures run.RunFailed? && run.stdout.Some? ==> b == run.stdout.value
  {
    match run
    case Exited(output) => output
    case RunFailed(_, _, stdout, _) => stdout.GetOr([])
  }

  class BomBuilder {
    const toolBuilder: Record -> Option<Tool>
    const componentBuilder: (Record, Option<ComponentType>) -> Option<ComponentValue>
    const purlFactory: (ComponentValue, bool) -> Option<Purl>
    const options: Options
    /** the pattern of `resolved` URLs that get no distribution reference */
    const ignoreResolved: string -> bool
    /** the tool's own package descriptor, `require("../package.json")` */
    const ownPackageJson: Record
    /** `this.reproducible`, `this.shortPURLs` and `this.metaComponentType`:
        read from the builder itself, not from `options` */
    const ownReproducible: bool
    const ownShortPURLs: bool
    const ownMetaComponentType: Option<ComponentType>

    constructor (
      toolBuilder: Record -> Option<Tool>,
      componentBuilder: (Record, Option<ComponentType>) -> Option<ComponentValue>,
      purlFactory: (ComponentValue, bool) -> Option<Purl>,
      options: Options,
      ignoreResolved: string -> bool,
      ownPackageJson: Record,
      ownReproducible: bool,
      ownShortPURLs: bool,
      ownMetaComponentType: Option<ComponentType>)
      ensures this.toolBuilder == toolBuilder && this.componentBuilder == componentBuilder
      ensures this.purlFactory == purlFactory && this.options == options
      ensures this.ignoreResolved == ignoreResolved && this.ownPackageJson == ownPackageJson
      ensures this.ownReproducible == ownReproducible && this.ownShortPURLs == ownShortPURLs
      ensures this.ownMetaComponentType == ownMetaComponentType
    {
      this.toolBuilder, this.componentBuilder, this.purlFactory := toolBuilder, componentBuilder, purlFactory;
      this.options, this.ignoreResolved, this.ownPackageJson := options, ignoreResolved, ownPackageJson;
      this.ownReproducible, this.ownShortPURLs := ownReproducible, ownShortPURLs;
      this.ownMetaComponentType := ownMetaComponentType;
    }

    // ------------------------------------------------------------ fetching

    /** `fetchNpmLs` after the run: a failed run is fatal unless npm errors
        are ignored, in which case its captured output is parsed instead; a
        parse failure is fatal either way. */
    method FetchNpmLs(run: RunOutcome, parse: Bytes -> ParseOutcome) returns (r: Result<Record, FetchError>)
      ensures run.RunFailed? && !options.ignoreNpmErrors ==>
                r == Failure(NpmLsExited(ExitMessage(run.status, run.signal)))
      ensures (run.Exited? || options.ignoreNpmErrors) ==>
                (r.Success? <==> parse(OutputBytes(run)).Parsed?)
      ensures r.Success? ==> parse(OutputBytes(run)) == Parsed(r.value)
      ensures parse(OutputBytes(run)).Unparsable? ==> r.Failure?
      ensures (run.Exited? || options.ignoreNpmErrors) && parse(OutputBytes(run)).Unparsable? ==>
                r == Failure(ResponseUnparsable(ParseFailedMessage, parse(OutputBytes(run)).parseError))
    {
      var npmLsReturns: Bytes;
      match run {
        case Exited(output) =>
          npmLsReturns := output;
        case RunFailed(status, signal, stdout, _) =>
          if !options.ignoreNpmErrors {
            return Failure(NpmLsExited(ExitMessage(status, signal)));
          }
          npmLsReturns := stdout.GetOr([]);
      }
      match parse(npmLsReturns) {
        case Parsed(data) => r := Success(data);
        case Unparsable(parseError) => r := Failure(ResponseUnparsable(ParseFailedMessage, parseError));
      }
    }

    // ------------------------------------------------- component enrichment

    /** A development record is omitted when development dependencies are. */
    predicate OmitsAsDev(data: Record) {
      IsDev(data) && Dev in options.omitDependencyTypes
    }

    /** `makePurl` */
    function MakePurl(c: ComponentValue): Option<Purl> {
      ShortenPurl(purlFactory(c, ownReproducible), ownShortPURLs)
    }

    /** The component `makeComponent` produces from what the component
        builder made: the enrichment rules, then the purl of that, then the
        bom-ref from `_id` or from the component's own identity. */
    function Enriched(built: ComponentValue, data: Record): ComponentValue
    {
      var before := BeforePurl(built, data, ignoreResolved);
      before.(purl := MakePurl(before),
              bomRef := Some(BomRef(Get(data, "_id"), built.group, built.name, built.version)))
    }

    /** Enrichment keeps everything the builder made except the purl and the
        bom-ref, which it sets; the bom-ref is never empty. */
    lemma EnrichedExtendsBuilt(built: ComponentValue, data: Record)
      ensures var v := Enriched(built, data);
        && v.componentType == built.componentType && v.name == built.name
        && v.group == built.group && v.version == built.version
        && |v.properties| >= |built.properties|
        && v.properties[..|built.properties|] == built.properties
        && (forall a :: a in built.hashes && a != SHA512 ==> a in v.hashes && v.hashes[a] == built.hashes[a])
        && v.bomRef.Some? && v.bomRef.value != ""
    {
      BeforePurlExtends(built, data, ignoreResolved);
      BomRefNonEmpty(Get(data, "_id"), built.group, built.name, built.version);
    }

    /** `if (flag) component.properties.add(new Property(name, "true"))` */
    static method AddFlagProperty(component: Component, flag: bool, name: PropertyName)
      modifies component`properties
      ensures component.properties == WithFlag(old(component.properties), flag, name)
    {
      if flag {
        component.properties := component.properties + [Property(name, BoolTrue)];
      }
    }

    /** The properties region of `makeComponent`: the install path when
        `path` is a string, then one boolean property per flag that is set. */
    method AddPackageProperties(component: Component, data: Record, isDev: bool)
      requires isDev == IsDev(data)
      modifies component`properties
      ensures component.properties == old(component.properties) + AddedProperties(data)
    {
      ghost var before := component.properties;
      var path := Get(data, "path");
      if path.Str? {
        component.properties := component.properties + [Property(PackageInstallPath, Text(path.s))];
      }
      ghost var p0 := component.properties;
      assert p0 == before + InstallPathProperty(path);
      AddFlagProperty(component, isDev, PackageDevelopment);
      AddFlagProperty(component, IsStrictTrue(Get(data, "extraneous")), PackageExtraneous);
      AddFlagProperty(component, IsStrictTrue(Get(data, "private")), PackagePrivate);
      AddFlagProperty(component, IsBundled(data), PackageBundled);
      assert component.properties == WithPackageProperties(before, FlagsOf(data));
      WithPackagePropertiesAppends(before, FlagsOf(data));
    }

    /** A distribution reference for a `resolved` URL the ignore pattern
        does not match. */
    method AddDistributionReference(component: Component, data: Record)
      modifies component`externalReferences
      ensures component.externalReferences
                == old(component.externalReferences) + DistributionReferences(data, ignoreResolved)
    {
      var resolved := Resolved(data);
      if resolved.Str? && !ignoreResolved(resolved.s) {
        component.externalReferences := component.externalReferences
          + [ExternalReference(resolved.s, Distribution, ResolvedComment)];
      }
    }

    /** The SHA-512 hash of a `sha512-<base64>` integrity, as hex. */
    method AddIntegrityHash(component: Component, data: Record)
      modifies component`hashes
      ensures component.hashes == HashesAfter(old(component.hashes), data)
    {
      var integrity := Integrity(data);
      if integrity.Str? {
        var hashSha512Match := Sha512Payload(integrity.s);
        if hashSha512Match.Some? {
          component.hashes := component.hashes[SHA512 := HexEncode(Base64Decode(hashSha512Match.value))];
        }
      }
    }

    /** The enrichment part of `makeComponent`, applied in place to the
        component the builder made: properties, distribution reference,
        hash, then purl and bom-ref. Children are left alone. */
    method EnrichComponent(component: Component, data: Record, isDev: bool)
      requires isDev == IsDev(data)
      modifies component
      ensures component.Value() == Enriched(old(component.Value()), data)
      ensures component.components == old(component.components)
    {
      ghost var built := component.Value();
      AddPackageProperties(component, data, isDev);
      AddDistributionReference(component, data);
      AddIntegrityHash(component, data);
      assert component.Value() == BeforePurl(built, data, ignoreResolved);
      component.purl := MakePurl(component.Value());
      component.bomRef := Some(BomRef(Get(data, "_id"), component.group, component.name, component.version));
    }

    /** `makeComponent`: omitted for an omitted development record (the
        component builder is not consulted), broken when the builder fails,
        else the builder's component enriched in place. */
    method MakeComponent(data: Record, componentType: Option<ComponentType>) returns (r: MadeComponent)
      ensures r.Omitted? <==> OmitsAsDev(data)
      ensures r.Broken? <==> !OmitsAsDev(data) && componentBuilder(data, componentType).None?
      ensures r.Made? ==>
                && fresh(r.component)
                && r.component.components == {}
                && r.component.Value() == Enriched(componentBuilder(data, componentType).value, data)
    {
      var isDev := IsDev(data);
      if isDev && Dev in options.omitDependencyTypes {
        return Omitted;
      }
      var built := componentBuilder(data, componentType);
      if built.None? {
        return Broken;
      }
      var component := new Component.FromValue(built.value);
      EnrichComponent(component, data, isDev);
      return Made(component);
    }

    // ------------------------------------------------------------ assembly

    /** What the root component holds: the record's own enriched component,
        or the placeholder when the record was omitted or could not be built. */
    function RootValue(data: Record): ComponentValue {
      if !OmitsAsDev(data) && componentBuilder(data, ownMetaComponentType).Some?
      then Enriched(componentBuilder(data, ownMetaComponentType).value, data)
      else DummyValue(ownMetaComponentType, "RootComponent")
    }

    /** The root component: the record's own component, or the placeholder
        `DummyComponent.RootComponent` when it was omitted or broken. */
    method MakeRootComponent(data: Record) returns (root: Component)
      ensures fresh(root) && root.components == {}
      ensures root.Value() == RootValue(data)
    {
      var made := MakeComponent(data, ownMetaComponentType);
      if made.Made? {
        root := made.component;
      } else {
        root := new Component.Dummy(ownMetaComponentType, "RootComponent");
      }
    }

    /** The flatten loop: every collected component loses its nested
        children, and every one but the root joins the top-level collection. */
    method FlattenComponents(bom: Bom, allComponents: map<JsValue, Component>, root: Component)
      modifies bom`components, allComponents.Values`components
      ensures forall c :: c in allComponents.Values ==> c.components == {}
      ensures bom.components == old(bom.components) + (allComponents.Values - {root})
      ensures root !in old(bom.components) ==> root !in bom.components
    {
      var pending := allComponents.Values;
      while pending != {}
        invariant pending <= allComponents.Values
        invariant forall c :: c in allComponents.Values - pending ==> c.components == {}
        invariant bom.components == old(bom.components) + (allComponents.Values - pending - {root})
        decreases pending
      {
        var component :| component in pending;
        component.components := {};
        if component != root {
          bom.components := bom.components + {component};
        }
        pending := pending - {component};
      }
    }

    /** `makeThisTool`: the tool record built from the tool's own descriptor. */
    function ThisTool(): Option<Tool> {
      toolBuilder(ownPackageJson)
    }

    /** The metadata and components regions of `buildFromNpmLs`, given the
        root component and the record's `path`. */
    method AssembleBom(rootComponent: Component, rootPath: JsValue, now: int) returns (bom: Bom)
      modifies rootComponent`components
      ensures fresh(bom)
      ensures bom.tools == (if ThisTool().Some? then [ThisTool().value] else [])
      ensures bom.timestamp == (if options.reproducible then None else Some(now))
      ensures bom.components == {}
      ensures rootComponent.components == if options.flattenComponents then {} else old(rootComponent.components)
    {
      var allComponents: map<JsValue, Component> := map[rootPath := rootComponent];
      bom := new Bom();
      var thisTool := ThisTool();
      if thisTool.Some? {
        bom.tools := bom.tools + [thisTool.value];
      }
      if !options.reproducible {
        bom.timestamp := Some(now);
      }
      if options.flattenComponents {
        assert rootPath in allComponents;
        assert allComponents.Values == {rootComponent};
        FlattenComponents(bom, allComponents, rootComponent);
      }
    }

    method BuildFromNpmLs(data: Record, now: int) returns (bom: Bom, ghost root: Component)
      ensures fresh(bom) && fresh(root)
      ensures bom.tools == (if ThisTool().Some? then [ThisTool().value] else [])
      ensures bom.timestamp == (if options.reproducible then None else Some(now))
      ensures bom.components == {}
      ensures root.components == {}
      ensures root.Value() == RootValue(data)
    {
      var rootComponent := MakeRootComponent(data);
      root := rootComponent;
      bom := AssembleBom(rootComponent, Get(data, "path"), now);
    }

    /** `buildFromProjectDir`: fetch, then build; a fetch error is the result. */
    method BuildFromProjectDir(run: RunOutcome, parse: Bytes -> ParseOutcome, now: int)
      returns (r: Result<Bom, FetchError>)
      ensures r.Failure? <==> (run.RunFailed? && !options.ignoreNpmErrors) || parse(OutputBytes(run)).Unparsable?
      ensures run.RunFailed? && !options.ignoreNpmErrors ==>
                r == Failure(NpmLsExited(ExitMessage(run.status, run.signal)))
      ensures (run.Exited? || options.ignoreNpmErrors) && parse(OutputBytes(run)).Unparsable? ==>
                r == Failure(ResponseUnparsable(ParseFailedMessage, parse(OutputBytes(run)).parseError))
      ensures r.Success? ==> fresh(r.value) && r.value.components == {}
      ensures r.Success? ==> r.value.tools == (if ThisTool().Some? then [ThisTool().value] else [])
      ensures r.Success? ==> r.value.timestamp == (if options.reproducible then None else Some(now))
    {
      var fetched := FetchNpmLs(run, parse);
      match fetched {
        case Failure(e) => r := Failure(e);
        case Success(data) =>
          var bom, _ := BuildFromNpmLs(data, now);
          r := Success(bom);
      }
    }
  }
}
