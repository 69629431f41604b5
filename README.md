# SurfSense runtime configuration endpoints and startup model check

This project models, in Dafny, three small pieces of the SurfSense backend
and proves what they promise:

- **GET /config** (`get_frontend_config`): the runtime configuration
  document the frontend loads. `AUTH_TYPE` and `ETL_SERVICE` are
  default-filled with Python's `or` (unset or empty gives `GOOGLE` and
  `UNSTRUCTURED`) and otherwise passed through exactly as spelt. The
  backend URL is the constant `http://localhost:8000`. The two sign-in
  flags compare the authentication type with `GOOGLE` and `LOCAL` exactly.
  The document depends on those two settings and nothing else, so no
  secret can leak into it.
- **GET /auth/config** (`get_auth_config`): only the authentication type,
  default-filled the same way and then upper-cased. Because GET /config
  does not upper-case, the two endpoints disagree when `AUTH_TYPE` holds a
  lower-case letter. For `AUTH_TYPE=local` this endpoint answers `LOCAL`,
  while GET /config answers `local` with both sign-in flags off.
- **Startup model check** (`check_and_download_models` and its two
  checkers, plus the guard around it in `main.py`). The check reads
  `ETL_SERVICE` (default `UNSTRUCTURED`, used only when the variable is
  absent) and `MODEL_PATH` (default `/app/models`). It creates the model
  directory, then dispatches case-sensitively:
  - `LLAMACLOUD` does nothing more.
  - `DOCLING` builds a Docling converter.
  - `UNSTRUCTURED` downloads the EasyOCR models into `MODEL_PATH/easyocr`,
    unless that directory exists and is non-empty.
  - Any other value only logs a warning.

  A checker's failure is re-raised. `main.py` catches it, and the
  application starts anyway.

Modules:
- `Wrappers` holds `Option` and `Outcome`.
- `PyStr` holds Python truthiness, `or` and ASCII `str.upper`.
- `AppConfig` holds the settings record.
- `ConfigRoutes` and `AuthConfigRoutes` model the two handlers as pure
  functions returning records, one field per JSON key.
- `Startup` models the check as a pure function. Its inputs are the
  environment map, what is on disk and whether the foreign libraries
  succeed. It returns a `Run`: the trace of effects (mkdir, Docling load,
  EasyOCR download, warning) and an `Outcome`, where `Fail(error)` stands
  for a raised exception.

`app/config` is not part of this model. Each setting is taken as
`Option<string>`, with `None` when unset. Every other setting (keys,
secrets, database URLs) is kept as an opaque map, so the "nothing else
leaks" promise can be stated.

## Model

| member | source | states |
|---|---|---|
| `PyStr.Or` | surfsense_backend/app/routes/config_routes.py:21-22 | `x or d`: the value when it is a non-empty string, the fallback when it is `None` or `""`; a non-empty fallback gives a non-empty result |
| `PyStr.UpperChar` | surfsense_backend/app/routes/auth_config_routes.py:12 | ASCII upper-casing of one character: never lower case afterwards, a-z moved to the matching A-Z, all else unchanged |
| `PyStr.Upper` | surfsense_backend/app/routes/auth_config_routes.py:12 | `str.upper()` keeps the length, upper-cases each character in place and leaves no lower-case letter |
| `PyStr.UpperIdempotent` | surfsense_backend/app/routes/auth_config_routes.py:12 | upper-casing twice equals upper-casing once |
| `PyStr.UpperFixedIff` | surfsense_backend/app/routes/auth_config_routes.py:12 | `upper` leaves a string unchanged iff it has no lower-case letter (both directions) |
| `ConfigRoutes.GetFrontendConfig` | surfsense_backend/app/routes/config_routes.py:21-35 | authType and etlService are the settings unchanged when non-empty and GOOGLE / UNSTRUCTURED otherwise; backendUrl is always the constant; each flag is on iff authType equals GOOGLE / LOCAL exactly |
| `ConfigRoutes.FlagsExclusive` | surfsense_backend/app/routes/config_routes.py:31-34 | the two flags are never both on, and one is on iff authType is GOOGLE or LOCAL |
| `ConfigRoutes.DefaultEnablesGoogle` | surfsense_backend/app/routes/config_routes.py:21-33 | with AUTH_TYPE unset or empty only Google sign-in is enabled |
| `ConfigRoutes.OtherSpellingDisablesBoth` | surfsense_backend/app/routes/config_routes.py:21-33 | any other non-empty AUTH_TYPE, such as `local`, is returned as spelt with both flags off: no case folding, no validation |
| `ConfigRoutes.DependsOnlyOnAuthAndEtl` | surfsense_backend/app/routes/config_routes.py:17-22 | settings that agree on AUTH_TYPE and ETL_SERVICE give the same document, whatever the other settings hold |
| `ConfigRoutes.NoSecretLeaks` | surfsense_backend/app/routes/config_routes.py:17-35 | every string in the document is one of the two exposed settings, their defaults or the constant URL |
| `AuthConfigRoutes.GetAuthConfig` | surfsense_backend/app/routes/auth_config_routes.py:10-12 | authType is GOOGLE when AUTH_TYPE is unset or empty, else the upper-cased AUTH_TYPE; it never holds a lower-case letter |
| `AuthConfigRoutes.AuthTypeIsUpperFixedPoint` | surfsense_backend/app/routes/auth_config_routes.py:12 | the answer is a fixed point of upper-casing |
| `AuthConfigRoutes.DependsOnlyOnAuthType` | surfsense_backend/app/routes/auth_config_routes.py:11 | only AUTH_TYPE influences the answer |
| `AuthConfigRoutes.AgreesWithFrontendConfig` | surfsense_backend/app/routes/auth_config_routes.py:11-12 | this endpoint and GET /config report the same authType iff AUTH_TYPE is unset, empty or free of lower-case letters |
| `AuthConfigRoutes.LowerCaseLocalDiverges` | surfsense_backend/app/routes/config_routes.py:21-33 | for AUTH_TYPE=local: /auth/config says LOCAL, /config says `local` with both flags off |
| `Startup.GetEnv` | surfsense_backend/app/services/startup.py:18-19 | `os.getenv(name, default)` substitutes the default only for an absent variable; a set variable, even empty, is returned as is |
| `Startup.EtlService` | surfsense_backend/app/services/startup.py:18 | ETL_SERVICE as set (even empty), UNSTRUCTURED only when the variable is absent |
| `Startup.ModelPath` | surfsense_backend/app/services/startup.py:19 | MODEL_PATH as set, `/app/models` only when the variable is absent |
| `Startup.EasyOcrPath` | surfsense_backend/app/services/startup.py:64 | the EasyOCR directory is the model path followed by `/easyocr` |
| `Startup.EasyOcrCached` | surfsense_backend/app/services/startup.py:66 | the cache counts as present iff the path exists, is a directory and is not empty |
| `Startup.Dispatch` | surfsense_backend/app/services/startup.py:25-35 | exact, case-sensitive decision table: LLAMACLOUD needs no local models, DOCLING selects Docling, UNSTRUCTURED selects EasyOCR, every other value is unknown (each an iff) |
| `Startup.EasyOcrSeen` | surfsense_backend/app/services/startup.py:20-66 | a model directory that was just created or is empty has nothing at `easyocr`; in a non-empty model directory the observed state is what the disk holds at `easyocr` |
| `Startup.CheckDocling` | surfsense_backend/app/services/startup.py:38-59 | the Docling check loads the converter once and raises DoclingFailed iff the library fails |
| `Startup.CheckUnstructured` | surfsense_backend/app/services/startup.py:62-80 | skips iff `easyocr` exists as a non-empty directory; a regular file there makes iterdir raise; otherwise downloads into MODEL_PATH/easyocr and raises EasyOcrFailed iff the download fails |
| `Startup.CheckAndDownloadModels` | surfsense_backend/app/services/startup.py:13-35 | the model directory is created first for every ETL value; at most one further action follows; a regular file at MODEL_PATH raises FileExists before dispatch |
| `Startup.StartupModelCheck` | surfsense_backend/main.py:21-27 | the startup guard catches every failure of the check: models are unavailable iff the check raised, with that error, and startup continues |
| `Startup.AbsentEtlIsUnstructured` | surfsense_backend/app/services/startup.py:18 | an absent ETL_SERVICE behaves exactly as ETL_SERVICE=UNSTRUCTURED |
| `Startup.EmptyEtlIsUnknown` | surfsense_backend/app/services/startup.py:18-35 | ETL_SERVICE set to "" is not defaulted: it only warns and runs no check |
| `Startup.LlamaCloudRunsNoCheck` | surfsense_backend/app/services/startup.py:25-27 | LLAMACLOUD runs nothing after the mkdir and succeeds |
| `Startup.DoclingRunsOnlyDocling` | surfsense_backend/app/services/startup.py:30-31 | DOCLING runs only the Docling check, whose failure is the check's outcome |
| `Startup.UnstructuredRunsOnlyEasyOcr` | surfsense_backend/app/services/startup.py:32-75 | UNSTRUCTURED runs only the EasyOCR check; no action iff the cache is present or the path is a file, otherwise exactly one download into MODEL_PATH/easyocr; the outcome is Pass on a cache hit, NotADirectory for a file, and EasyOcrFailed iff the download fails |
| `Startup.EasyOcrSkipIffCachedOnDisk` | surfsense_backend/app/services/startup.py:62-75 | under UNSTRUCTURED the run is the mkdir alone with success iff MODEL_PATH/easyocr exists on disk as a non-empty directory; a download happens iff that path is neither such a directory nor a file |
| `Startup.UnknownServiceOnlyWarns` | surfsense_backend/app/services/startup.py:34-35 | any other value, lower-case spellings included, only warns and succeeds |
| `Startup.FailsExactlyWhen` | surfsense_backend/app/services/startup.py:20-80 | among the modelled failures, the check raises iff MODEL_PATH is a regular file, Docling fails under DOCLING, or under UNSTRUCTURED the easyocr path is a file or a needed download fails |

## Left out

- FastAPI routing, `async`, and JSON serialisation. The handlers are plain functions returning records, one field per key.
- `app/config` is not part of this model. How AUTH_TYPE and ETL_SERVICE are loaded is not modelled, and they are taken as optional strings. Non-string values are not modelled.
- `PyStr.Upper`: only ASCII a-z is upper-cased. Python's full Unicode `str.upper` also maps non-ASCII letters (`é` to `É`) and can change the length (`ß` to `SS`).
- Log messages and their text. Only the warning for an unknown ETL_SERVICE is kept, as an effect, because it is that branch's one observable action.
- `main.py`'s logging setup, dotenv loading, argparse and uvicorn server construction, which are process plumbing.
- Real filesystem and library calls. `mkdir`, `exists` and `iterdir` are replaced by the observed `PathState` of MODEL_PATH and MODEL_PATH/easyocr. `DocumentConverter()` and `easyocr.Reader` are replaced by whether they succeed. What they download, and the HuggingFace cache location, are not modelled.
- `Startup.CheckAndDownloadModels`: mkdir failures other than an existing regular file are not modelled. These include a permission error and a parent path that is a file.
- `Startup.FailsExactlyWhen`: the "iff" covers the modelled failures only. Three failures outside the `try` blocks are not modelled. `exists()` at startup.py:66 can raise PermissionError. `iterdir()` on an unreadable `easyocr` directory raises PermissionError. `Path.home()` at startup.py:45 raises when no home directory can be determined.
- `Startup.CheckUnstructured`: a PermissionError from `exists()` or `iterdir()` at startup.py:66 is not modelled. Only a regular file at the path raises, as NotADirectory.
- `Startup.CheckDocling`: a failure of `Path.home()` at startup.py:45, which happens before the `try`, is not modelled. Only the converter's own failure raises.
- `Startup.EasyOcrPath`: pathlib normalisation is not modelled. Paths are joined with `/`, so an empty MODEL_PATH (the current directory to pathlib) and trailing slashes are not normalised.
- The frontend's runtime-config resolver (single-flight fetch, caching, retry with backoff, URL selection) is not part of this model. Its source is not among the modelled files.
