# FastAPI service skeleton: error taxonomy, error responses, CORS origins and project scaffolder

This Dafny project models the four pieces of the service skeleton that have exact behaviour. Each is stated in its own module:

- `Exceptions` (`exceptions.dfy`): the `ApiException` hierarchy. It covers the sixteen subclasses with the status code each one fixes, the inheritance between them, the class names, and the `ERROR_CODE_TO_EXCEPTION` table. Exceptions are values: the constructors set `message` and `status_code` once and nothing changes them afterwards. Both fields are `Option`s, because Python's `None` can be passed.
- `ExceptionHandlers` (`exception_handlers.dfy`): `api_exception_handler`. It maps an `ApiException` to the response status and the three-field JSON body. The Python falsiness fallbacks are modelled: `status_code or 500` and `message or "Unexpected error occurred."`.
- `Config` (`config.dfy`): `Settings.get_allowed_origins`. It models `str.split(",")`, `str.strip()` (with Python's exact `str.isspace` character set) and the filtering list comprehension. The proofs cover the bounds on the result, the shape of each element, the order of the pieces, the all-separator case and idempotence.
- The scaffolder, in two modules:
  - `ScaffoldSpec` (`scaffold_spec.dfy`) states the walk of `main_file_structure.py` as functions over an abstract filesystem value. That value is a set of directory paths plus a map from file paths to contents, and a path is a sequence of components. It also proves what the walk does and does not do to that filesystem.
  - `Scaffold` (`scaffold.dfy`) is the script as it runs. A `FileSystem` object's directory set and file map are updated in place by `EnsureDir`, `CreateFromList`, `CreateFolders` and `CreateStructure`, using the script's own loops and recursion. Each method is proved to leave exactly the state the matching `ScaffoldSpec` function describes.

  An exception raised by `os.makedirs` or `open` is modelled as a `false` result. Every caller passes it straight up, and the filesystem is left as far as the walk got.
- `Wrappers` (`wrappers.dfy`) holds `Option`, which stands for a value that may be `None`.

The scaffolder leaves existing entries alone: directories through `exist_ok=True` (main_file_structure.py:55) and files through the `os.path.exists` test (main_file_structure.py:68). A regular file where a directory has to be made is not skipped, though: `os.makedirs` raises, and the script then exits with status 1 (`ScaffoldSpec.BlockedExitsOne`).

## Model

| member | source | states |
|---|---|---|
| Exceptions.NewApiException | src/core/common/exceptions.py:4-7 | `ApiException(m, c)` stores `message == m` and `status_code == c`; the code defaults to 500 |
| Exceptions.NewApiExceptionAs | src/core/common/exceptions.py:4-7 | the base `__init__` run on an object of any class keeps that class and stores the message and code it is given |
| Exceptions.AllAreApiExceptions | src/core/common/exceptions.py:10-154 | every class of the taxonomy derives, directly or through its parent, from `ApiException` |
| Exceptions.FixedCode | src/core/common/exceptions.py:10-154 | every class's fixed status code lies in 400..599 |
| Exceptions.ConstructFixesCode | src/core/common/exceptions.py:10-154 | building any class from a message keeps the class and the message unchanged and gives the class's fixed code (400, 401, 403, 404, 405, 409, 429, 500, 501, 502, 503, inherited for the four sub-classes), whatever the message |
| Exceptions.SubclassInheritsCode | src/core/common/exceptions.py:17-78 | `DuplicateEntryException`, `UnauthorizedServiceAccountException`, `PasswordPolicyException` and `PasswordExpiredException` carry their parent's code |
| Exceptions.ClassNamesDistinct | src/core/common/exceptions.py:1-154 | any two different classes have different `__name__`s, including the four that share 403 |
| Exceptions.TableDomain | src/core/common/exceptions.py:157-169 | the table's keys are exactly {400, 401, 403, 404, 405, 409, 429, 500, 501, 502, 503} |
| Exceptions.TableRoundTrip | src/core/common/exceptions.py:157-169 | for every key `c`, the class the table gives, built with any message, has `status_code == c` |
| Exceptions.TableCoversCodes | src/core/common/exceptions.py:157-169 | every class's fixed code is a key of the table; looking it up gives the class back if and only if the class is one the table lists |
| Exceptions.ForbiddenFamilyMapsToForbidden | src/core/common/exceptions.py:55-78 | `ExpiredTokenException`, `PasswordPolicyException` and `PasswordExpiredException` map back to `ForbiddenApiException`, so the table does not invert the codes |
| ExceptionHandlers.StatusOrDefault | src/app/middleware/exception_handlers.py:23 | `status_code or 500`: the code itself when it is set and nonzero, 500 when it is 0 or `None` |
| ExceptionHandlers.MessageOrDefault | src/app/middleware/exception_handlers.py:26 | `message or "Unexpected error occurred."`: the message when it is set and non-empty, the fixed text otherwise |
| ExceptionHandlers.Handle | src/app/middleware/exception_handlers.py:22-29 | the body has exactly the keys `error`, `details` and `status_code`. The status is the exception's nonzero code, or 500. The body's `status_code` equals the response status, which is never 0. `error` is the class name. `details` is the non-empty message or the fallback text |
| ExceptionHandlers.ResponseIgnoresRequest | src/app/middleware/exception_handlers.py:8-29 | the response depends on the exception alone, because the request only feeds the log line |
| ExceptionHandlers.HandleConstructed | src/app/middleware/exception_handlers.py:23-27 | any class built from a message is answered with that class's fixed code, and with the message itself when it is non-empty |
| ExceptionHandlers.ErrorFieldDistinguishesKinds | src/app/middleware/exception_handlers.py:25 | exceptions of two different classes get different `error` fields, even when they share a status code |
| ExceptionHandlers.FalsyCodeBecomes500 | src/app/middleware/exception_handlers.py:23 | an `ApiException` built with code 0 or `None` is answered with 500 |
| Config.SplitPieces | src/app/config.py:60 | no piece that `split(",")` gives contains a comma |
| Config.SplitCount | src/app/config.py:60 | `split(",")` gives exactly one more piece than there are commas in its input |
| Config.JoinSplit | src/app/config.py:60 | joining the pieces of a split with "," gives the string back |
| Config.SplitJoin | src/app/config.py:60 | splitting the comma-join of a non-empty list of comma-free strings gives the list back |
| Config.SplitAfterComma | src/app/config.py:60 | splitting a comma-free first piece, a comma and a rest gives that piece followed by the pieces of the rest |
| Config.Strip | src/app/config.py:60 | the result of `strip()` has no whitespace at either end |
| Config.StripSlice | src/app/config.py:60 | the result of `strip()` is a slice of its input with nothing but whitespace before and after it |
| Config.StripCommaFree | src/app/config.py:60 | stripping a comma-free string gives a comma-free string |
| Config.StripAllSpace | src/app/config.py:60 | a string of whitespace alone strips to the empty string |
| Config.StripFixed | src/app/config.py:60 | a string with no whitespace at either end strips to itself |
| Config.Clean | src/app/config.py:60 | the comprehension keeps at most as many elements as there are pieces |
| Config.CleanShape | src/app/config.py:60 | every element the comprehension keeps is non-empty and has no whitespace at either end |
| Config.CleanCons | src/app/config.py:60 | the comprehension handles the first piece, then the rest, in order |
| Config.CleanCommaFree | src/app/config.py:60 | comma-free pieces give comma-free elements |
| Config.CleanAppend | src/app/config.py:60 | the comprehension keeps the order of the pieces: cleaning a concatenation cleans each part in turn |
| Config.CleanOne | src/app/config.py:60 | a single piece is kept, stripped, exactly when stripping leaves something |
| Config.CleanFixed | src/app/config.py:60 | pieces that are already non-empty and stripped pass through unchanged |
| Config.GetAllowedOrigins | src/app/config.py:55-60 | `"*"` gives `["*"]`. Any input gives at most one element more than it has commas, and every element is non-empty, stripped and comma-free |
| Config.FirstPieceStripsAway | src/app/config.py:60 | in a string of commas and whitespace, the piece before the first comma strips to nothing |
| Config.SeparatorsCleanToNothing | src/app/config.py:60 | every piece of a string made only of commas and whitespace strips to nothing |
| Config.OnlySeparatorsGiveNothing | src/app/config.py:58-60 | a value made only of commas and whitespace, `""` included, gives `[]` |
| Config.Idempotent | src/app/config.py:58-60 | joining the allow-list with "," and parsing it again gives the same allow-list |
| ScaffoldSpec.MakeDirs | main_file_structure.py:54-55 | `os.makedirs(p, exist_ok=True)` fails exactly when a regular file sits at `p` or above it. Otherwise `p` is a directory afterwards, only `p`'s ancestors are added, and files are untouched |
| ScaffoldSpec.MakeDirsPreservesWellFormed | main_file_structure.py:54-55 | making directories keeps the filesystem well formed: every entry sits in a directory, and nothing is both a file and a directory |
| ScaffoldSpec.MakeDirsNoOp | main_file_structure.py:54-55 | making a directory that is already there changes nothing |
| ScaffoldSpec.CreateFile | main_file_structure.py:65-73 | a string item leaves an existing target as it is. Otherwise it creates the target as an empty file, making its missing parent first. It only adds, adds no file but the target, and the target exists when it succeeds |
| ScaffoldSpec.CreateFilePreservesWellFormed | main_file_structure.py:65-73 | creating a file keeps the filesystem well formed |
| ScaffoldSpec.CreateFileInDir | main_file_structure.py:68-73 | with the parent directory in place, a string item never fails |
| ScaffoldSpec.FolderPath | main_file_structure.py:96 | top-level keys "." and "" stand for the root itself; any other key is the root's child of that name |
| ScaffoldSpec.ExitStatus | main_file_structure.py:113-118 | the script exits with 0 exactly when the walk did not raise, and with 1 otherwise |
| ScaffoldSpec.FromListGrows | main_file_structure.py:58-86 | `create_from_list` only adds entries: no entry disappears, no existing file's contents change, and every file it adds is empty and listed in its items |
| ScaffoldSpec.FromListDirsListed | main_file_structure.py:58-86 | the only directories `create_from_list` makes are `base` and its ancestors and the folders listed in its items and their ancestors |
| ScaffoldSpec.FromEntriesGrows | main_file_structure.py:74-83 | the same for one dict's entries |
| ScaffoldSpec.FromEntriesDirsListed | main_file_structure.py:74-83 | the only directories one dict's entries make are the listed folders and their ancestors |
| ScaffoldSpec.FromListPreservesWellFormed | main_file_structure.py:58-86 | `create_from_list` keeps the filesystem well formed |
| ScaffoldSpec.FromEntriesPreservesWellFormed | main_file_structure.py:74-83 | the same for one dict's entries |
| ScaffoldSpec.FromListComplete | main_file_structure.py:58-86 | when `create_from_list` finishes, every folder named at any depth is a directory and every file named exists |
| ScaffoldSpec.FromEntriesComplete | main_file_structure.py:74-83 | the same for one dict's entries: every key is a folder, and list contents are walked beneath it |
| ScaffoldSpec.FromListNoOp | main_file_structure.py:58-86 | on a well-formed filesystem that already has everything listed, `create_from_list` succeeds and changes nothing |
| ScaffoldSpec.FromEntriesNoOp | main_file_structure.py:74-83 | the same for one dict's entries |
| ScaffoldSpec.CreateFileFailsUnchanged | main_file_structure.py:65-73 | a string item that raises leaves the filesystem as it was |
| ScaffoldSpec.FromListRerun | main_file_structure.py:58-86 | walking the items again over any well-formed filesystem that keeps what the first walk made (and is where it stopped, if it raised) changes nothing and ends as the first walk did |
| ScaffoldSpec.FromEntriesRerun | main_file_structure.py:74-83 | the same for one dict's entries |
| ScaffoldSpec.FromListIdempotent | main_file_structure.py:58-86 | running `create_from_list` twice on a well-formed filesystem gives the same filesystem and outcome as running it once, whether the first run finished or raised |
| ScaffoldSpec.FromListFinishedUnblocked | main_file_structure.py:58-86 | if `create_from_list` finishes, no regular file sat at or above a folder it names |
| ScaffoldSpec.FromListSucceeds | main_file_structure.py:58-86 | under a directory `base`, `create_from_list` finishes when no file, existing or listed, sits at or above a folder it names |
| ScaffoldSpec.FromEntriesSucceeds | main_file_structure.py:74-83 | the same for one dict's entries, which needs no directory at `base` |
| ScaffoldSpec.StructureGrows | main_file_structure.py:89-107 | `create_structure` only adds entries: no entry disappears, no existing file's contents change, and every file it adds is empty and listed in the tree |
| ScaffoldSpec.StructureDirsListed | main_file_structure.py:89-107 | the only directories `create_structure` makes are the folders listed in the tree and their ancestors |
| ScaffoldSpec.StructurePreservesWellFormed | main_file_structure.py:89-107 | `create_structure` keeps the filesystem well formed |
| ScaffoldSpec.StructureComplete | main_file_structure.py:89-107 | when `create_structure` finishes, every folder and file named at any depth exists at its joined path. This includes top-level dict contents, whose keys become folders |
| ScaffoldSpec.StructureNoOp | main_file_structure.py:89-107 | on a well-formed filesystem that already has the whole tree, `create_structure` succeeds and changes nothing |
| ScaffoldSpec.StructureRerun | main_file_structure.py:89-107 | `create_structure` again over any well-formed filesystem that keeps what the first run made (and is where it stopped, if it raised) changes nothing and ends as the first run did |
| ScaffoldSpec.StructureIdempotent | main_file_structure.py:89-107 | running the scaffolder twice on a well-formed filesystem gives the same filesystem and exit outcome as running it once, whether the first run finished or raised |
| ScaffoldSpec.StructureFinishedUnblocked | main_file_structure.py:89-107 | if `create_structure` finishes, no regular file sat at or above a folder the tree names |
| ScaffoldSpec.BlockedExitsOne | main_file_structure.py:110-118 | a regular file already present where the tree needs a folder, or above it, makes the walk raise and the script exit with status 1 |
| ScaffoldSpec.StructureSucceedsWithin | main_file_structure.py:89-107 | `create_structure` finishes when no file, existing or listed, sits at or above a folder the tree names (any supersets of those sets may be given) |
| ScaffoldSpec.StructureSucceeds | main_file_structure.py:89-118 | under that condition the script exits with 0, and every listed folder and file exists afterwards |
| Scaffold.FileSystem.constructor | main_file_structure.py:111 | the script starts in a well-formed filesystem holding the working directory and its ancestors |
| Scaffold.FileSystem.EnsureDir | main_file_structure.py:54-55 | checks each ancestor of the path for a regular file, then makes the missing directories. The new state and the result are those of `ScaffoldSpec.MakeDirs` |
| Scaffold.FileSystem.CreateFromList | main_file_structure.py:58-86 | the loop over items, with the string branch inline and the dict branch recursing. It leaves the state and result of `ScaffoldSpec.FromList` |
| Scaffold.FileSystem.CreateFolders | main_file_structure.py:74-83 | the loop over one dict's entries leaves the state and result of `ScaffoldSpec.FromEntries` |
| Scaffold.FileSystem.CreateStructure | main_file_structure.py:89-107 | the top-level loop leaves the state and result of `ScaffoldSpec.Structure` |
| Scaffold.FileSystem.RunScript | main_file_structure.py:110-118 | the `__main__` block leaves the filesystem `create_structure` leaves, and exits with `ScaffoldSpec.ExitStatus` of that walk. It only adds entries, and it keeps a well-formed filesystem well formed |

## Left out

- The log line of `api_exception_handler` (src/app/middleware/exception_handlers.py:21) is left out. It is a side effect that does not reach the response.
- Handler inputs that are `HTTPException` or plain `Exception` are left out. They have no `.message`, and only `ApiException` is registered for this handler, so the input is an `ApiException` value.
- The `args` that `super().__init__(message)` gives the Python exception (src/core/common/exceptions.py:7) are left out, because the handler does not read them.
- Loading the settings from the environment and `.env` (src/app/config.py, apart from `get_allowed_origins`) is left out. That is done by the settings library, whose coercion rules are not part of this model.
- Config.GetAllowedOrigins: no concrete input is proved, for instance `"a, b ,,c"` → `["a", "b", "c"]`. The verifier unfolds `split` and `strip` on string literals too far for that. Order and trimming are instead proved for all inputs by `Config.CleanAppend`, `Config.CleanCons`, `Config.CleanOne`, `Config.Strip` and `Config.StripSlice`.
- The `structure` literal (main_file_structure.py:5-51) is not written out as a constant, for the same reason. The properties are proved for every tree, and so for that one too.
- Paths are sequences of components. OS path semantics are not modelled: a `/` inside a name, an absolute item replacing the base in `os.path.join`, `..`, a nested key "." or "", and case-insensitive filesystems. Permissions and other causes of `OSError` are not modelled either; only a regular file in the way makes a step fail.
- ScaffoldSpec.BlockedExitsOne: it covers a file that is present before the run. A file that the walk itself creates where a later folder must go also makes the walk raise, but no lemma states that case.
- ScaffoldSpec.MakeDirs: it fails whenever a regular file sits at the path or above it, as `os.makedirs` does. The kind of exception raised is not modelled.
- Python dicts cannot repeat a key, but a description here is a sequence of entries and may repeat one. Every property holds either way.
- Console output of the script (its `print` calls) and the process exit itself are not modelled; the exit status is returned as a value.
- Everything outside these four pieces is not part of this model: the FastAPI application wiring, the database session, the logger, the ORM models and schemas, the pagination dependency and the health route.
