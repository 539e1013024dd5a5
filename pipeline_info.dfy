/** `pipeline_info.py`: the names of the files that belong to each pipeline,
    and the registry of the known pipelines.

    `find_aux_file` is the table `aux` from a relative path to the path it
    finds; a path it cannot find raises. The config-key enumerations from
    SHE_PPT are represented by their names. */
module PipelineInfos {
  import opened Wrappers
  import opened Strings
  import opened Paths

  const CommonAuxdir := "SHE_Pipeline"
  const PackageDefHead := "PkgDef_SHE_"
  const PipelineScriptHead := "PipScript_SHE_"
  const PipelineDefHead := "PipDef_SHE_"
  const AuxdirHead := "SHE_"
  const ConfigTail := "_config.txt"
  const IsfTail := "_isf.txt"

  // ---------------------------------------------------------------------
  // The constructor's naming rules

  /** The names a `PipelineInfo` derives in its constructor. */
  datatype Naming = Naming(
    auxdir: string,
    packageDef: string,
    pipelineScript: string,
    pipelineDef: string,
    config: string,
    isf: string,
    optionalPorts: seq<string>)

  function OrElse<T>(o: Option<T>, default: T): T {
    if o.Some? then o.value else default
  }

  /** `PipelineInfo(lowercase_name, uppercase_name, ..., auxdir, package_def,
      optional_ports)`: a given auxdir or package definition replaces the
      upper-case name in that one name only. */
  function NamingOf(lower: string, upper: string, auxdir: Option<string>, packageDef: Option<string>,
                    optionalPorts: Option<seq<string>>): Naming
  {
    Naming(
      AuxdirHead + OrElse(auxdir, upper),
      PackageDefHead + OrElse(packageDef, upper) + ".py",
      PipelineScriptHead + upper + ".py",
      PipelineDefHead + upper + ".py",
      lower + ConfigTail,
      lower + IsfTail,
      OrElse(optionalPorts, []))
  }

  /** Without overrides every name comes from the two names of the
      pipeline, and there are no optional ports. */
  lemma DefaultNaming(lower: string, upper: string)
    ensures NamingOf(lower, upper, None, None, None) ==
      Naming("SHE_" + upper, "PkgDef_SHE_" + upper + ".py", "PipScript_SHE_" + upper + ".py",
             "PipDef_SHE_" + upper + ".py", lower + "_config.txt", lower + "_isf.txt", [])
  {
  }

  /** An override of the auxdir or of the package definition changes that
      name and nothing else. */
  lemma OverridesAreLocal(lower: string, upper: string, auxdir: Option<string>, packageDef: Option<string>,
                          optionalPorts: Option<seq<string>>)
    ensures
      var n, d := NamingOf(lower, upper, auxdir, packageDef, optionalPorts), NamingOf(lower, upper, None, None, None);
      n.pipelineScript == d.pipelineScript && n.pipelineDef == d.pipelineDef &&
      n.config == d.config && n.isf == d.isf &&
      (auxdir.None? ==> n.auxdir == d.auxdir) && (packageDef.None? ==> n.packageDef == d.packageDef) &&
      (optionalPorts.None? ==> n.optionalPorts == [])
  {
  }

  /** A head and a tail around a name identify the name. */
  lemma Framed(head: string, x: string, y: string, tail: string)
    requires head + x + tail == head + y + tail
    ensures x == y
  {
    var s := head + x + tail;
    assert s[|head|..|s| - |tail|] == x;
    assert (head + y + tail)[|head|..|s| - |tail|] == y;
  }

  lemma FramedTail(x: string, y: string, tail: string)
    requires x + tail == y + tail
    ensures x == y
  {
    assert (x + tail)[..|x|] == x;
    assert (y + tail)[..|y|] == y;
  }

  /** Different pipeline names give different scripts, definitions, config
      files and ISFs. */
  lemma NamesIdentifyPipeline(l1: string, u1: string, l2: string, u2: string,
                              a1: Option<string>, p1: Option<string>, o1: Option<seq<string>>,
                              a2: Option<string>, p2: Option<string>, o2: Option<seq<string>>)
    ensures NamingOf(l1, u1, a1, p1, o1).pipelineScript == NamingOf(l2, u2, a2, p2, o2).pipelineScript ==> u1 == u2
    ensures NamingOf(l1, u1, a1, p1, o1).pipelineDef == NamingOf(l2, u2, a2, p2, o2).pipelineDef ==> u1 == u2
    ensures NamingOf(l1, u1, a1, p1, o1).config == NamingOf(l2, u2, a2, p2, o2).config ==> l1 == l2
    ensures NamingOf(l1, u1, a1, p1, o1).isf == NamingOf(l2, u2, a2, p2, o2).isf ==> l1 == l2
  {
    if PipelineScriptHead + u1 + ".py" == PipelineScriptHead + u2 + ".py" {
      Framed(PipelineScriptHead, u1, u2, ".py");
    }
    if PipelineDefHead + u1 + ".py" == PipelineDefHead + u2 + ".py" {
      Framed(PipelineDefHead, u1, u2, ".py");
    }
    if l1 + ConfigTail == l2 + ConfigTail {
      FramedTail(l1, l2, ConfigTail);
    }
    if l1 + IsfTail == l2 + IsfTail {
      FramedTail(l1, l2, IsfTail);
    }
  }

  /** No pipeline's config file has the name of any pipeline's ISF. */
  lemma ConfigIsNeverIsf(l1: string, l2: string)
    ensures l1 + ConfigTail != l2 + IsfTail
  {
    var c, i := l1 + ConfigTail, l2 + IsfTail;
    assert c[|c| - 5] == 'g';
    assert i[|i| - 5] == 'f';
  }

  // ---------------------------------------------------------------------
  // Lookups that happen at most once

  /** One access to a `qualified_*` property: the cached value if there is
      one; otherwise `find_aux_file(path)`, which is cached when it succeeds.
      The third component lists the lookups made. */
  function LazyLookup(cache: Option<string>, path: string, aux: map<string, string>)
    : (Result<string>, Option<string>, seq<string>)
  {
    if cache.Some? then (Ok(cache.value), cache, [])
    else if path in aux then (Ok(aux[path]), Some(aux[path]), [path])
    else (Err(RuntimeError(path)), None, [path])
  }

  /** The first access looks the path up once and returns what it finds
      (or raises); every later access returns that same value and looks
      nothing up, whatever the files are by then. */
  lemma LookedUpAtMostOnce(path: string, aux: map<string, string>, later: map<string, string>)
    ensures LazyLookup(None, path, aux).2 == [path]
    ensures LazyLookup(None, path, aux).0 == (if path in aux then Ok(aux[path]) else Err(RuntimeError(path)))
    ensures
      var (r, c, _) := LazyLookup(None, path, aux);
      r.Ok? ==> LazyLookup(c, path, later) == (r, c, [])
  {
  }

  /** A failed lookup leaves nothing cached, so the next access tries
      again. */
  lemma FailureIsNotCached(path: string, aux: map<string, string>, later: map<string, string>)
    requires path !in aux
    ensures LazyLookup(None, path, aux).1 == None
    ensures LazyLookup(LazyLookup(None, path, aux).1, path, later).2 == [path]
  {
  }

  /** Where the four names are looked up: the script and the package
      definition under the pipeline's auxdir, the config and the ISF under
      `SHE_Pipeline`. */
  lemma LookupPaths(lower: string, upper: string, auxdir: Option<string>, packageDef: Option<string>,
                    optionalPorts: Option<seq<string>>)
    requires !StartsWith(lower, "/") && !EndsWith(OrElse(auxdir, upper), "/")
    ensures
      var n := NamingOf(lower, upper, auxdir, packageDef, optionalPorts);
      PathJoin(n.auxdir, n.pipelineScript) == n.auxdir + "/" + n.pipelineScript &&
      PathJoin(n.auxdir, n.packageDef) == n.auxdir + "/" + n.packageDef &&
      PathJoin(CommonAuxdir, n.config) == "SHE_Pipeline/" + lower + "_config.txt" &&
      PathJoin(CommonAuxdir, n.isf) == "SHE_Pipeline/" + lower + "_isf.txt"
  {
    var n := NamingOf(lower, upper, auxdir, packageDef, optionalPorts);
    var given := OrElse(auxdir, upper);
    assert n.pipelineScript[0] == 'P' && n.packageDef[0] == 'P';
    assert !StartsWith(n.pipelineScript, "/") && !StartsWith(n.packageDef, "/");
    assert !EndsWith(n.auxdir, "/") by {
      if given == [] {
        assert n.auxdir == AuxdirHead;
      } else {
        assert n.auxdir[|n.auxdir| - 1] == given[|given| - 1];
        assert given[|given| - 1..] != "/";
      }
    }
    NotRooted(lower, ConfigTail);
    NotRooted(lower, IsfTail);
    SheJoin(lower, ConfigTail);
    SheJoin(lower, IsfTail);
  }

  lemma NotRooted(lower: string, tail: string)
    requires !StartsWith(lower, "/") && |tail| > 0 && tail[0] == '_'
    ensures !StartsWith(lower + tail, "/")
  {
    if lower == [] {
      assert (lower + tail)[0] == '_';
    } else {
      assert (lower + tail)[0] == lower[0];
      assert lower[..1] != "/";
    }
  }

  lemma SheJoin(lower: string, tail: string)
    ensures CommonAuxdir + "/" + (lower + tail) == "SHE_Pipeline/" + lower + tail
  {
  }

  /** `PipelineInfo`: the derived names, fixed at construction, and the four
      lazily found paths with the lookups made so far. */
  class PipelineInfo {
    const lowercaseName: string
    const uppercaseName: string
    const configKeys: string
    const auxdir: string
    const packageDef: string
    const optionalPorts: seq<string>
    const pipelineScript: string
    const pipelineDef: string
    const config: string
    const isf: string

    var qualifiedPipelineScript: Option<string>
    var qualifiedPackageDef: Option<string>
    var qualifiedConfig: Option<string>
    var qualifiedIsf: Option<string>
    /** Every `find_aux_file` call made for this object, in order. */
    var lookups: seq<string>

    function Names(): Naming {
      Naming(auxdir, packageDef, pipelineScript, pipelineDef, config, isf, optionalPorts)
    }

    function PipelineScriptPath(): string { PathJoin(auxdir, pipelineScript) }
    function PackageDefPath(): string { PathJoin(auxdir, packageDef) }
    function ConfigPath(): string { PathJoin(CommonAuxdir, config) }
    function IsfPath(): string { PathJoin(CommonAuxdir, isf) }

    /** A cached path was found by a lookup of its own relative path, so
        every value a property returns, cached or not, came from one. */
    ghost predicate Valid()
      reads this
    {
      (qualifiedPipelineScript.Some? ==> PipelineScriptPath() in lookups) &&
      (qualifiedPackageDef.Some? ==> PackageDefPath() in lookups) &&
      (qualifiedConfig.Some? ==> ConfigPath() in lookups) &&
      (qualifiedIsf.Some? ==> IsfPath() in lookups)
    }

    constructor (lower: string, upper: string, keys: string, auxdirArg: Option<string>,
                 packageDefArg: Option<string>, optionalPortsArg: Option<seq<string>>)
      ensures Names() == NamingOf(lower, upper, auxdirArg, packageDefArg, optionalPortsArg)
      ensures lowercaseName == lower && uppercaseName == upper && configKeys == keys
      ensures qualifiedPipelineScript == qualifiedPackageDef == qualifiedConfig == qualifiedIsf == None
      ensures lookups == []
      ensures Valid()
    {
      lowercaseName := lower;
      uppercaseName := upper;
      configKeys := keys;
      auxdir := AuxdirHead + OrElse(auxdirArg, upper);
      packageDef := PackageDefHead + OrElse(packageDefArg, upper) + ".py";
      optionalPorts := OrElse(optionalPortsArg, []);
      pipelineScript := PipelineScriptHead + upper + ".py";
      pipelineDef := PipelineDefHead + upper + ".py";
      config := lower + ConfigTail;
      isf := lower + IsfTail;
      qualifiedPipelineScript := None;
      qualifiedPackageDef := None;
      qualifiedConfig := None;
      qualifiedIsf := None;
      lookups := [];
    }

    /** `qualified_pipeline_script`. */
    method QualifiedPipelineScript(aux: map<string, string>) returns (r: Result<string>)
      requires Valid()
      modifies this
      ensures var (res, c, made) := LazyLookup(old(qualifiedPipelineScript), PipelineScriptPath(), aux);
        r == res && qualifiedPipelineScript == c && lookups == old(lookups) + made
      ensures qualifiedPackageDef == old(qualifiedPackageDef) && qualifiedConfig == old(qualifiedConfig)
      ensures qualifiedIsf == old(qualifiedIsf)
      ensures r.Ok? ==> PipelineScriptPath() in lookups
      ensures Valid()
    {
      if qualifiedPipelineScript.None? {
        var path := PathJoin(auxdir, pipelineScript);
        lookups := lookups + [path];
        if path !in aux {
          return Err(RuntimeError(path));
        }
        qualifiedPipelineScript := Some(aux[path]);
      }
      r := Ok(qualifiedPipelineScript.value);
    }

    /** `qualified_package_def`. */
    method QualifiedPackageDef(aux: map<string, string>) returns (r: Result<string>)
      requires Valid()
      modifies this
      ensures var (res, c, made) := LazyLookup(old(qualifiedPackageDef), PackageDefPath(), aux);
        r == res && qualifiedPackageDef == c && lookups == old(lookups) + made
      ensures qualifiedPipelineScript == old(qualifiedPipelineScript) && qualifiedConfig == old(qualifiedConfig)
      ensures qualifiedIsf == old(qualifiedIsf)
      ensures r.Ok? ==> PackageDefPath() in lookups
      ensures Valid()
    {
      if qualifiedPackageDef.None? {
        var path := PathJoin(auxdir, packageDef);
        lookups := lookups + [path];
        if path !in aux {
          return Err(RuntimeError(path));
        }
        qualifiedPackageDef := Some(aux[path]);
      }
      r := Ok(qualifiedPackageDef.value);
    }

    /** `qualified_config`. */
    method QualifiedConfig(aux: map<string, string>) returns (r: Result<string>)
      requires Valid()
      modifies this
      ensures var (res, c, made) := LazyLookup(old(qualifiedConfig), ConfigPath(), aux);
        r == res && qualifiedConfig == c && lookups == old(lookups) + made
      ensures qualifiedPipelineScript == old(qualifiedPipelineScript) && qualifiedPackageDef == old(qualifiedPackageDef)
      ensures qualifiedIsf == old(qualifiedIsf)
      ensures r.Ok? ==> ConfigPath() in lookups
      ensures Valid()
    {
      if qualifiedConfig.None? {
        var path := PathJoin(CommonAuxdir, config);
        lookups := lookups + [path];
        if path !in aux {
          return Err(RuntimeError(path));
        }
        qualifiedConfig := Some(aux[path]);
      }
      r := Ok(qualifiedConfig.value);
    }

    /** `qualified_isf`. */
    method QualifiedIsf(aux: map<string, string>) returns (r: Result<string>)
      requires Valid()
      modifies this
      ensures var (res, c, made) := LazyLookup(old(qualifiedIsf), IsfPath(), aux);
        r == res && qualifiedIsf == c && lookups == old(lookups) + made
      ensures qualifiedPipelineScript == old(qualifiedPipelineScript) && qualifiedPackageDef == old(qualifiedPackageDef)
      ensures qualifiedConfig == old(qualifiedConfig)
      ensures r.Ok? ==> IsfPath() in lookups
      ensures Valid()
    {
      if qualifiedIsf.None? {
        var path := PathJoin(CommonAuxdir, isf);
        lookups := lookups + [path];
        if path !in aux {
          return Err(RuntimeError(path));
        }
        qualifiedIsf := Some(aux[path]);
      }
      r := Ok(qualifiedIsf.value);
    }
  }

  // ---------------------------------------------------------------------
  // pipeline_info_dict

  /** The constructor arguments of one registered pipeline. */
  datatype InfoArgs = InfoArgs(lower: string, upper: string, keys: string, auxdir: Option<string>,
                               packageDef: Option<string>, optionalPorts: Option<seq<string>>)

  const AnalysisOptionalPorts: seq<string> :=
    ["phz_output_cat", "spe_output_cat", "momentsml_training_data", "pipeline_config"]

  /** An analysis pipeline that shares the auxdir and the package definition
      of `Shear_Analysis`. */
  function AnalysisVariant(lower: string, upper: string): InfoArgs {
    InfoArgs(lower, upper, "AnalysisConfigKeys", Some("Shear_Analysis"), Some("Shear_Analysis"),
             Some(AnalysisOptionalPorts))
  }

  const Analysis := InfoArgs("analysis", "Shear_Analysis", "AnalysisConfigKeys", None, None, Some(AnalysisOptionalPorts))
  const AnalysisAfterRemap := AnalysisVariant("analysis_after_remap", "Shear_Analysis_After_Remap")
  const AnalysisWithTuMatch := AnalysisVariant("analysis_with_tu_match", "Shear_Analysis_With_TU_Match")
  const AnalysisAfterRemapWithTuMatch :=
    AnalysisVariant("analysis_after_remap_with_tu_match", "Shear_Analysis_After_Remap_With_TU_Match")
  const Calibration := InfoArgs("calibration", "Shear_Calibration", "CalibrationConfigKeys", None, None, None)
  const BiasMeasurement := InfoArgs("bias_measurement", "Bias_Measurement", "CalibrationConfigKeys",
                                    Some("Shear_Calibration"), Some("Shear_Calibration"), None)
  const Reconciliation := InfoArgs("reconciliation", "Shear_Reconciliation", "ReconciliationConfigKeys", None, None, None)
  const GlobalValidation :=
    InfoArgs("global_validation", "Global_Validation", "AnalysisValidationConfigKeys", None, None, None)

  function NamingOfArgs(a: InfoArgs): Naming {
    NamingOf(a.lower, a.upper, a.auxdir, a.packageDef, a.optionalPorts)
  }

  /** `pipeline_info_dict`, in insertion order, with each object given by
      its constructor arguments. */
  const PipelineInfoDict: seq<(string, InfoArgs)> := [
    ("analysis", Analysis),
    ("analysis_after_remap", AnalysisAfterRemap),
    ("analysis_with_tu_match", AnalysisWithTuMatch),
    ("analysis_after_remap_with_tu_match", AnalysisAfterRemapWithTuMatch),
    ("calibration", Calibration),
    ("bias_measurement", BiasMeasurement),
    ("reconciliation", Reconciliation),
    ("global_validation", GlobalValidation)]

  /** Each pipeline is filed under its own lower-case name, once. */
  lemma DictKeys()
    ensures forall i :: 0 <= i < |PipelineInfoDict| ==> PipelineInfoDict[i].0 == PipelineInfoDict[i].1.lower
    ensures forall i, j :: 0 <= i < j < |PipelineInfoDict| ==> |PipelineInfoDict[i].0| != |PipelineInfoDict[j].0|
  {
  }

  /** `bias_measurement` shares the auxdir and package definition of the
      calibration pipeline but keeps a script of its own. */
  lemma BiasMeasurementNaming()
    ensures PipelineInfoDict[5] == ("bias_measurement", BiasMeasurement)
    ensures PipelineInfoDict[4] == ("calibration", Calibration)
    ensures NamingOfArgs(BiasMeasurement).auxdir == "SHE_Shear_Calibration"
    ensures NamingOfArgs(BiasMeasurement).packageDef == "PkgDef_SHE_Shear_Calibration.py"
    ensures NamingOfArgs(BiasMeasurement).pipelineScript == "PipScript_SHE_Bias_Measurement.py"
    ensures NamingOfArgs(BiasMeasurement).packageDef == NamingOfArgs(Calibration).packageDef
    ensures NamingOfArgs(BiasMeasurement).pipelineScript != NamingOfArgs(Calibration).pipelineScript
  {
    BiasAuxdir();
    BiasPackageDef();
    BiasScript();
    var b, c := NamingOfArgs(BiasMeasurement), NamingOfArgs(Calibration);
    assert b.pipelineScript[14] == 'B' && c.pipelineScript[14] == 'S';
  }

  lemma BiasAuxdir()
    ensures NamingOfArgs(BiasMeasurement).auxdir == "SHE_Shear_Calibration"
  {
    BiasParts();
    LiteralAuxdir();
  }

  lemma BiasPackageDef()
    ensures NamingOfArgs(BiasMeasurement).packageDef == "PkgDef_SHE_Shear_Calibration.py"
  {
    BiasParts();
    LiteralPackageDef();
  }

  lemma BiasScript()
    ensures NamingOfArgs(BiasMeasurement).pipelineScript == "PipScript_SHE_Bias_Measurement.py"
  {
    BiasParts();
    LiteralScript();
  }

  lemma BiasParts()
    ensures NamingOfArgs(BiasMeasurement).auxdir == "SHE_" + "Shear_Calibration"
    ensures NamingOfArgs(BiasMeasurement).packageDef == "PkgDef_SHE_" + "Shear_Calibration" + ".py"
    ensures NamingOfArgs(BiasMeasurement).pipelineScript == "PipScript_SHE_" + "Bias_Measurement" + ".py"
  {
  }

  lemma LiteralAuxdir()
    ensures "SHE_" + "Shear_Calibration" == "SHE_Shear_Calibration"
  {
  }

  lemma LiteralPackageDef()
    ensures "PkgDef_SHE_" + "Shear_Calibration" + ".py" == "PkgDef_SHE_Shear_Calibration.py"
  {
  }

  lemma LiteralScript()
    ensures "PipScript_SHE_" + "Bias_Measurement" + ".py" == "PipScript_SHE_Bias_Measurement.py"
  {
  }

  /** The three analysis variants find their package definition and script
      directory with the plain analysis pipeline. */
  lemma AnalysisVariantsShareAuxdir(lower: string, upper: string)
    ensures NamingOfArgs(AnalysisVariant(lower, upper)).auxdir == NamingOfArgs(Analysis).auxdir
    ensures NamingOfArgs(AnalysisVariant(lower, upper)).packageDef == NamingOfArgs(Analysis).packageDef
    ensures NamingOfArgs(AnalysisVariant(lower, upper)).optionalPorts == AnalysisOptionalPorts
    ensures NamingOfArgs(AnalysisVariant(lower, upper)).pipelineScript == "PipScript_SHE_" + upper + ".py"
  {
  }
}
