/**
 * The startup model check: read ETL_SERVICE and MODEL_PATH from the
 * environment, create the model directory, then run at most one checker.
 * Filesystem observations and the foreign model libraries are inputs; what
 * the check does to the outside world is an emitted trace of effects, and
 * an exception it raises is a `Fail` outcome.
 */
module Startup {
  import opened Wrappers

  /** The process environment, os.environ. */
  type Env = map<string, string>

  const DefaultEtlService := "UNSTRUCTURED"
  const DefaultModelPath := "/app/models"

  /** os.getenv(name, default): the default replaces an ABSENT variable only;
      a variable set to "" is returned as "". */
  function GetEnv(env: Env, name: string, default: string): (r: string)
    ensures name in env ==> r == env[name]
    ensures name !in env ==> r == default
  {
    if name in env then env[name] else default
  }

  /** ETL_SERVICE, or UNSTRUCTURED when the variable is absent. */
  function EtlService(env: Env): (r: string)
    ensures "ETL_SERVICE" in env ==> r == env["ETL_SERVICE"]
    ensures "ETL_SERVICE" !in env ==> r == DefaultEtlService
  {
    GetEnv(env, "ETL_SERVICE", DefaultEtlService)
  }

  /** MODEL_PATH, or /app/models when the variable is absent. */
  function ModelPath(env: Env): (r: string)
    ensures "MODEL_PATH" in env ==> r == env["MODEL_PATH"]
    ensures "MODEL_PATH" !in env ==> r == DefaultModelPath
  {
    GetEnv(env, "MODEL_PATH", DefaultModelPath)
  }

  /** model_path / "easyocr" */
  function EasyOcrPath(modelPath: string): (r: string)
    ensures |r| == |modelPath| + |"/easyocr"|
    ensures r[..|modelPath|] == modelPath && r[|modelPath|..] == "/easyocr"
  {
    modelPath + "/easyocr"
  }

  /** What is at a path before the check runs. */
  datatype PathState = Absent | File | Dir(hasEntries: bool)

  /** The filesystem as seen by the check: MODEL_PATH, and MODEL_PATH/easyocr
      (consulted only when MODEL_PATH is a directory with entries). */
  datatype Disk = Disk(modelDir: PathState, easyOcrDir: PathState)

  /** Whether the foreign constructors succeed: docling's DocumentConverter()
      and easyocr.Reader (including their imports and downloads). */
  datatype Libraries = Libraries(doclingLoads: bool, easyOcrDownloads: bool)

  /** The externally visible actions of one check. */
  datatype Effect =
    | MakeModelDir(path: string)           // mkdir(parents=True, exist_ok=True)
    | LoadDocling                          // DocumentConverter(), may download models
    | DownloadEasyOcr(dir: string)         // easyocr.Reader(['en'], model_storage_directory=dir)
    | WarnUnknownService(etlService: string)

  datatype Error =
    | FileExists(path: string)      // mkdir on an existing non-directory
    | NotADirectory(path: string)   // iterdir on an existing non-directory
    | DoclingFailed
    | EasyOcrFailed

  datatype Run = Run(effects: seq<Effect>, outcome: Outcome<Error>)

  /** Which checker an ETL_SERVICE value selects; matching is exact and case-sensitive. */
  datatype Check = NoLocalModels | DoclingCheck | EasyOcrCheck | UnknownService

  function Dispatch(etlService: string): (c: Check)
    ensures c == NoLocalModels <==> etlService == "LLAMACLOUD"
    ensures c == DoclingCheck <==> etlService == "DOCLING"
    ensures c == EasyOcrCheck <==> etlService == "UNSTRUCTURED"
    ensures c == UnknownService <==> etlService !in {"LLAMACLOUD", "DOCLING", "UNSTRUCTURED"}
  {
    if etlService == "LLAMACLOUD" then NoLocalModels
    else if etlService == "DOCLING" then DoclingCheck
    else if etlService == "UNSTRUCTURED" then EasyOcrCheck
    else UnknownService
  }

  /** What is at MODEL_PATH/easyocr once MODEL_PATH is a directory: nothing
      when that directory was just created or is empty. */
  function EasyOcrSeen(disk: Disk): (s: PathState)
    ensures disk.modelDir != Dir(true) ==> s == Absent
    ensures disk.modelDir == Dir(true) ==> s == disk.easyOcrDir
  {
    if disk.modelDir == Dir(true) then disk.easyOcrDir else Absent
  }

  /** The EasyOCR cache counts as present iff its directory exists and is non-empty. */
  predicate EasyOcrCached(seen: PathState)
    ensures EasyOcrCached(seen) <==> seen != Absent && seen != File && seen != Dir(false)
  {
    seen == Dir(true)
  }

  /** _check_docling_models: build a DocumentConverter; a failure is re-raised. */
  function CheckDocling(libs: Libraries): (r: Run)
    ensures r.effects == [LoadDocling]
    ensures r.outcome.Fail? <==> !libs.doclingLoads
    ensures r.outcome.Fail? ==> r.outcome.error == DoclingFailed
  {
    Run([LoadDocling], if libs.doclingLoads then Pass else Fail(DoclingFailed))
  }

  /** _check_unstructured_models: skip when the EasyOCR cache is present,
      otherwise download into MODEL_PATH/easyocr; a failure is re-raised.
      An existing regular file at that path makes iterdir raise. */
  function CheckUnstructured(modelPath: string, seen: PathState, libs: Libraries): (r: Run)
    ensures EasyOcrCached(seen) ==> r == Run([], Pass)
    ensures seen == File ==> r == Run([], Fail(NotADirectory(EasyOcrPath(modelPath))))
    ensures r.effects == [DownloadEasyOcr(EasyOcrPath(modelPath))]
      <==> !EasyOcrCached(seen) && seen != File
    ensures r.effects != [] ==> (r.outcome.Fail? <==> !libs.easyOcrDownloads)
    ensures r.outcome.Fail? && r.effects != [] ==> r.outcome.error == EasyOcrFailed
  {
    var dir := EasyOcrPath(modelPath);
    match seen
    case File => Run([], Fail(NotADirectory(dir)))
    case Dir(true) => Run([], Pass)
    case _ => Run([DownloadEasyOcr(dir)], if libs.easyOcrDownloads then Pass else Fail(EasyOcrFailed))
  }

  /** check_and_download_models */
  function CheckAndDownloadModels(env: Env, disk: Disk, libs: Libraries): (r: Run)
    // the model directory is created first, whatever ETL_SERVICE says
    ensures |r.effects| >= 1 && r.effects[0] == MakeModelDir(ModelPath(env))
    // at most one further action: one checker, or one warning
    ensures |r.effects| <= 2
    // a regular file at MODEL_PATH stops the check before any dispatch
    ensures disk.modelDir == File ==> r == Run([MakeModelDir(ModelPath(env))], Fail(FileExists(ModelPath(env))))
  {
    var modelPath := ModelPath(env);
    var etlService := EtlService(env);
    if disk.modelDir == File then
      Run([MakeModelDir(modelPath)], Fail(FileExists(modelPath)))
    else
      var rest :=
        match Dispatch(etlService)
        case NoLocalModels => Run([], Pass)
        case DoclingCheck => CheckDocling(libs)
        case EasyOcrCheck => CheckUnstructured(modelPath, EasyOcrSeen(disk), libs)
        case UnknownService => Run([WarnUnknownService(etlService)], Pass);
      Run([MakeModelDir(modelPath)] + rest.effects, rest.outcome)
  }

  /** The state the application starts in after main.py's guarded call. */
  datatype StartupStatus = ModelsReady | ModelsUnavailable(reason: Error)

  /** main.py: any exception of the check is caught; the application starts regardless. */
  function StartupModelCheck(env: Env, disk: Disk, libs: Libraries): (s: StartupStatus)
    ensures s.ModelsUnavailable? <==> CheckAndDownloadModels(env, disk, libs).outcome.Fail?
    ensures s.ModelsUnavailable? ==> s.reason == CheckAndDownloadModels(env, disk, libs).outcome.error
  {
    match CheckAndDownloadModels(env, disk, libs).outcome
    case Pass => ModelsReady
    case Fail(e) => ModelsUnavailable(e)
  }

  /** The actions after the model directory is created. */
  function Actions(r: Run): seq<Effect>
    requires |r.effects| >= 1
  {
    r.effects[1..]
  }

  /** An absent ETL_SERVICE behaves exactly like ETL_SERVICE=UNSTRUCTURED. */
  lemma AbsentEtlIsUnstructured(env: Env, disk: Disk, libs: Libraries)
    requires "ETL_SERVICE" !in env
    ensures CheckAndDownloadModels(env, disk, libs)
         == CheckAndDownloadModels(env["ETL_SERVICE" := "UNSTRUCTURED"], disk, libs)
  {
  }

  /** A present but empty ETL_SERVICE is not defaulted: it is an unknown
      service, which only warns. */
  lemma EmptyEtlIsUnknown(env: Env, disk: Disk, libs: Libraries)
    requires "ETL_SERVICE" in env && env["ETL_SERVICE"] == ""
    requires disk.modelDir != File
    ensures var r := CheckAndDownloadModels(env, disk, libs);
      Actions(r) == [WarnUnknownService("")] && r.outcome == Pass
  {
  }

  /** LLAMACLOUD needs no local models: nothing runs after the mkdir. */
  lemma LlamaCloudRunsNoCheck(env: Env, disk: Disk, libs: Libraries)
    requires EtlService(env) == "LLAMACLOUD" && disk.modelDir != File
    ensures var r := CheckAndDownloadModels(env, disk, libs);
      Actions(r) == [] && r.outcome == Pass
  {
  }

  /** DOCLING runs the Docling check and nothing else; its failure propagates. */
  lemma DoclingRunsOnlyDocling(env: Env, disk: Disk, libs: Libraries)
    requires EtlService(env) == "DOCLING" && disk.modelDir != File
    ensures var r := CheckAndDownloadModels(env, disk, libs);
      && Actions(r) == [LoadDocling]
      && r.outcome == (if libs.doclingLoads then Pass else Fail(DoclingFailed))
  {
  }

  /** UNSTRUCTURED runs the EasyOCR check and nothing else: it downloads into
      MODEL_PATH/easyocr unless that directory exists and is non-empty. */
  lemma UnstructuredRunsOnlyEasyOcr(env: Env, disk: Disk, libs: Libraries)
    requires EtlService(env) == "UNSTRUCTURED" && disk.modelDir != File
    ensures var r := CheckAndDownloadModels(env, disk, libs);
      && LoadDocling !in Actions(r)
      && (Actions(r) == [] <==> EasyOcrCached(EasyOcrSeen(disk)) || EasyOcrSeen(disk) == File)
      && (Actions(r) != [] ==> Actions(r) == [DownloadEasyOcr(EasyOcrPath(ModelPath(env)))])
      && (EasyOcrCached(EasyOcrSeen(disk)) ==> r.outcome == Pass)
      && (EasyOcrSeen(disk) == File ==> r.outcome == Fail(NotADirectory(EasyOcrPath(ModelPath(env)))))
      && (Actions(r) != [] ==> r.outcome == (if libs.easyOcrDownloads then Pass else Fail(EasyOcrFailed)))
  {
  }

  /** Under UNSTRUCTURED the download is skipped iff MODEL_PATH/easyocr already
      exists as a non-empty directory (a file there raises instead). */
  lemma EasyOcrSkipIffCachedOnDisk(env: Env, disk: Disk, libs: Libraries)
    requires EtlService(env) == "UNSTRUCTURED" && disk.modelDir != File
    ensures var r := CheckAndDownloadModels(env, disk, libs);
      && (r == Run([MakeModelDir(ModelPath(env))], Pass)
          <==> disk.modelDir == Dir(true) && disk.easyOcrDir == Dir(true))
      && (DownloadEasyOcr(EasyOcrPath(ModelPath(env))) in r.effects
          <==> !(disk.modelDir == Dir(true) && disk.easyOcrDir in {File, Dir(true)}))
  {
  }

  /** Any other value, lower-case spellings included, only warns. */
  lemma UnknownServiceOnlyWarns(env: Env, disk: Disk, libs: Libraries)
    requires EtlService(env) !in {"LLAMACLOUD", "DOCLING", "UNSTRUCTURED"}
    requires disk.modelDir != File
    ensures var r := CheckAndDownloadModels(env, disk, libs);
      Actions(r) == [WarnUnknownService(EtlService(env))] && r.outcome == Pass
  {
  }

  /** Among the failures modelled, the check raises exactly in these cases,
      and nothing is swallowed. */
  lemma FailsExactlyWhen(env: Env, disk: Disk, libs: Libraries)
    ensures var r := CheckAndDownloadModels(env, disk, libs);
      var etl := EtlService(env);
      var seen := EasyOcrSeen(disk);
      r.outcome.Fail? <==>
        || disk.modelDir == File
        || (etl == "DOCLING" && !libs.doclingLoads)
        || (etl == "UNSTRUCTURED" && seen == File)
        || (etl == "UNSTRUCTURED" && !EasyOcrCached(seen) && !libs.easyOcrDownloads)
  {
  }
}
