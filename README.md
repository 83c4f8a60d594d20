# bocoel run manager and embedder selection, in Dafny

This project models two parts of bocoel, a tool that evaluates language models by letting
an optimizer pick corpus rows to score.

The first part is the evaluation run manager, `Manager` in `bocoel/core/exams/managers.py`:

- **Step loop.** `_launch` calls the optimizer's `step()` at most `steps` times, or until it
  is exhausted when no budget is given. It stops cleanly when `step()` raises `StopIteration`.
- **Accumulation.** `run` merges each step's `{row index -> score}` mapping into one dictionary,
  so the last write of a key wins. It then hands the merged scores to the examinator.
- **Run identity.** `md5` hashes the seven descriptors of a run, joined by single spaces.
  `with_identifier_cols` copies the score table and stamps every row with eight identifier columns.
- **Persistence.** The constructor refuses a path that is a regular file and creates the directory
  otherwise. `save` writes `<md5>.csv` into the directory and fails when none is configured.
  `load` concatenates every `*.csv` table of a directory and fails when there is none.

The second part is device and embedder selection in `bocoel/factories/embedders.py`:
`auto_device`, `auto_device_list`, and the name and type dispatch of `embedder`, including how
an ensemble pairs model names with devices.

Modules:

- `Common` (common.dfy): `Option`, `Result`, `Outcome`, and the raised exceptions as `Error`.
- `Text` (text.dfy): `" ".join`, `str.split(" ")`, and `str(n)` for naturals, with their inverses.
- `Tables` (tables.dfy): a table is a sequence of rows, and a row maps column names to cell text.
- `Files` (files.dfy): the file system as a class whose `entries` map paths to files or directories.
  A directory maps file names to tables.
- `Optimizers` (optimizers.dfy): the optimizer as a class replaying a fixed script of step outcomes,
  `Continue(scores)` or `Exhausted`. `Yielded` and `CallCount` specify what a run gets from it.
- `Managers` (managers.dfy): the `Manager` class and the lemmas about identity, merging and saving.
- `Embedders` (embedders.dfy): device selection and embedder construction, as pure functions.

External inputs become parameters:

- The clock reading `_start` is a parameter of `Manager.Create`.
- The MD5 digest is a function parameter `hexdigest`. Nothing is assumed about it, except where a
  lemma states, as an explicit hypothesis, that it does not collide on two given preimages.
- The examinator is a function parameter of `Manager.Create`.
- The CUDA queries are a `Cuda(available, deviceCount)` value.
- The order in which the OS lists a directory is the `listing` parameter of `Load`.

Two points where the behaviour is easy to misread:

- Changing one descriptor does not always change the run identity. `md5` joins the descriptors
  with single spaces, so a descriptor that contains a space can make two runs collide.
  `IdentityCollision` shows such a pair, and it collides for every digest. `IdentitySensitive`
  proves that distinct descriptors give distinct identities under two hypotheses. First, no
  descriptor other than the index one contains a space. The index descriptor may contain spaces,
  as a FAISS index's `FaissIndex(<spec>, <dim>)` does, because it sits between fixed fields on
  both sides. Second, the digest does not collide on the two preimages.
- The docstring of `load` (bocoel/core/exams/managers.py:180) promises a `ValueError` for a path
  that does not exist or is not a directory. The code has no such check. A missing path, or a
  path that is a regular file, matches no `*.csv` files, and so fails with the "No csv files" error.
  The model follows the code. The other errors are `ValueError` for a `save` with no path
  configured and for a constructor path that is a regular file, and `OSError` for a `save` whose
  directory has gone.

## Model

| member | source | states |
|---|---|---|
| `Managers.Manager.Create` | bocoel/core/exams/managers.py:39-47 | A path that names a regular file fails with `ValueError` and leaves the file system unchanged. Any other path ends up as a directory, and other entries are untouched. No path leaves the file system unchanged. The manager records the path, the start time and the examinator. |
| `Managers.Manager.Launch` | bocoel/core/exams/managers.py:148-166 | The yielded mappings are exactly `Yielded` of the optimizer's pending outcomes, and `step()` is called exactly `CallCount` times. |
| `Optimizers.Yielded` | bocoel/core/exams/managers.py:154-166 | Mapping `i` is the outcome of call `i`, so all earlier mappings are kept and in order. There are at most `max(steps, 0)` of them. Fewer than the budget (or no budget) means the optimizer was exhausted right after the last one. |
| `Optimizers.CallCount` | bocoel/core/exams/managers.py:154-164 | A budget `n` bounds the calls by `max(n, 0)`, so `steps = 0` makes no call. The calls number the yielded mappings, plus one exactly when a call hit exhaustion within the budget. |
| `Optimizers.Leading` | bocoel/core/exams/managers.py:161-166 | The mappings handed out before the first `StopIteration` are the scores of the leading `Continue` outcomes. The outcome right after them is `Exhausted`. |
| `Optimizers.Optimizer.Step` | bocoel/core/exams/managers.py:161-164 | Call `k` returns outcome `k` of the script, or `Exhausted` past its end, and counts the call. |
| `Managers.Manager.Run` | bocoel/core/exams/managers.py:66-71 | The merged scores are the left fold of map override over the yielded mappings. The result table is the examinator applied to the corpus index and the merged scores. |
| `Managers.Accumulate` | bocoel/core/exams/managers.py:66-68 | The key set of the merged scores is the union of the key sets of all steps. |
| `Managers.AccumulateLastWriteWins` | bocoel/core/exams/managers.py:66-68 | A key's merged value comes from the last step that produced that key. |
| `Managers.Preimage` | bocoel/core/exams/managers.py:216-227 | The preimage is exactly `optimizer embedder index storage model adaptor time`, separated by single spaces. When no descriptor holds a space, splitting it at spaces gives back the seven descriptors in that order. `Manager.Md5`, the run's identity, is `hexdigest` of this preimage. |
| `Managers.PreimageInjective` | bocoel/core/exams/managers.py:216-227 | Suppose no descriptor other than the index one holds a space. Then equal preimages come from equal descriptor tuples, even when the index descriptors contain spaces. |
| `Managers.IdentitySensitive` | bocoel/core/exams/managers.py:216-228 | Suppose the digest does not collide on the two preimages and only the index descriptors may hold spaces. Then two runs whose descriptor tuples differ get different identities. |
| `Managers.IdentityCollision` | bocoel/core/exams/managers.py:216-228 | The descriptor pairs `"a b","c"` and `"a","b c"` give different tuples but the same identity, for every digest. |
| `Managers.Manager.WithIdentifierCols` | bocoel/core/exams/managers.py:130-146 | The returned hash is the run's `md5` over the manager's start time. The output has as many rows as the input. Every row has all the input row's other cells, plus the eight identifier columns with the same values in each row. Its `MD5` cell equals the returned hash, and its `TIME` cell equals the start time. |
| `Managers.Manager.Save` | bocoel/core/exams/managers.py:97-104 | With no path it fails with `ValueError` and writes nothing. If the directory has gone, it fails with `OSError` and writes nothing. Otherwise it writes exactly one file, `<md5>.csv`, holding the stamped table, and nothing else changes. |
| `Managers.SaveSameRunTwice` | bocoel/core/exams/managers.py:97-104 | Two saves under the same identity leave one file, holding the second table. The directory gains only that one name. |
| `Managers.SaveDistinctRuns` | bocoel/core/exams/managers.py:97-104 | Under the hypotheses of `IdentitySensitive`, saving two different runs leaves two distinct files, each holding its own table. |
| `Managers.Manager.Load` | bocoel/core/exams/managers.py:185-190 | It fails with `ValueError` exactly when the path is not a directory with a `.csv` file. Otherwise the result's row count is the sum of the CSV tables' row counts. Its rows are exactly the rows of those tables. Each row occurs as often as in all the CSV tables together, so duplicate rows are kept. |
| `Managers.CsvNames` | bocoel/core/exams/managers.py:185 | The matched names are exactly the listed names ending in `.csv`. A listing without repeats gives matched names without repeats, so each CSV table is read once. |
| `Tables.ConcatRows` | bocoel/core/exams/managers.py:190 | Concatenation has the summed length, and a row occurs in it exactly when it occurs in one of the tables. Its multiset of rows is the sum of the tables' multisets. |
| `Files.MakeDirectory` | bocoel/core/exams/managers.py:43 | After it the path is a directory. A newly created directory is empty. Existing directories and all other entries are unchanged. |
| `Files.WriteFile` | bocoel/core/exams/managers.py:104 | Only the named file in the directory is replaced or added. Every other file and entry is unchanged. |
| `Embedders.AutoDevice` | bocoel/factories/embedders.py:88-92 | The result is never `"auto"`: it is the device asked for, `"cuda"` or `"cpu"`. It is `"cpu"` exactly when CUDA is unavailable or the CPU was asked for. With CUDA, an explicit device is honoured. |
| `Embedders.AutoDeviceList` | bocoel/factories/embedders.py:95-104 | There are exactly `max(n, 0)` entries and none is `"auto"`. Each is the device asked for, `"cpu"`, or a numbered CUDA device. A CUDA device the list picks itself exists, that is, its number is below `deviceCount`. |
| `Embedders.CudaDeviceIndex` | bocoel/factories/embedders.py:100 | The name `cuda:<k>` parses back to device number `k`. |
| `Embedders.AutoDeviceListFixed` | bocoel/factories/embedders.py:101-104 | With devices and an explicit device, every entry is that device. With no devices, every entry is `"cpu"`, whatever was asked. |
| `Embedders.AutoDeviceListInRange` | bocoel/factories/embedders.py:99-100 | Each `"auto"` entry parses back to CUDA index `i mod deviceCount`, which is below `deviceCount`. |
| `Embedders.AutoDeviceListRoundRobin` | bocoel/factories/embedders.py:99-100 | Two `"auto"` entries are equal exactly when their positions agree modulo `deviceCount`. So the first `deviceCount` models get distinct GPUs. |
| `Embedders.AutoDeviceListAgreesWithAutoDevice` | bocoel/factories/embedders.py:88-104 | Suppose the device is explicit or there is no GPU, and CUDA is available exactly when there are devices. Then every list entry is what `auto_device` picks for a single model. |
| `Embedders.Zip` | bocoel/factories/embedders.py:81 | The result has the length of the shorter list, and item `i` pairs the two items at position `i`. |
| `Embedders.MakeEmbedder` | bocoel/factories/embedders.py:50-85 | An unknown name fails with `ValueError`. A model name of the wrong shape fails with `TypeError`: a list for SBERT or HUGGINGFACE, a single string for HUGGINGFACE_ENSEMBLE. Every other request succeeds. SBERT and HUGGINGFACE get `auto_device(device)`. An ensemble has one member per model name, pairing name `i` with entry `i` of `auto_device_list`. |
| `Embedders.EnsembleDevicesRoundRobin` | bocoel/factories/embedders.py:77-82 | With `"auto"` and CUDA devices present, ensemble member `i` is built for model name `i` on CUDA device `i mod deviceCount`. |

## Left out

- The MD5 digest (RFC 1321, computed by `hashlib`) is an uninterpreted function parameter, with no injectivity axiom. A 128-bit digest cannot be injective, so the identity lemmas assume only that it does not collide on the two preimages at hand.
- The clock (`Manager.current`) is left out. Its reading `_start` is a parameter.
- The `alive_progress` progress bar is left out, because it is display only.
- `Examinator.presets()` and `Examinator.examine` are not part of this model. The examinator is an opaque function of the corpus index descriptor and the merged scores.
- The OrderedDict's key order is not modelled: the merged scores are a map. Each step's mapping is also a map without order, so the order in which `update` inserts its keys is not captured.
- Column order and the NaN filling that `pd.concat` does for columns missing from some tables are not modelled. A row holds only its own cells.
- CSV serialisation is not modelled: the table read back by `load` is the table `save` wrote. Type conversions by `to_csv`/`read_csv` are not captured.
- Manager.Load: `read_csv` raising on an empty or malformed `.csv` file is not modelled. A file here always holds a table, so `load` cannot fail on one.
- Manager.Load: a subdirectory whose name ends in `.csv` is matched by `glob` and makes `read_csv` fail. Directories here hold only files, so that case is not modelled.
- Manager.Load: `glob` matching `.CSV` case-insensitively on Windows is not captured. The match is the case-sensitive suffix test of POSIX systems.
- Manager.Create: paths are raw strings, not normalised as `Path(path)` normalises them. For example, `"d/"` and `"d"` are different entries, so `Create` with `"d/"` next to a regular file `d` succeeds here where the source raises `ValueError`.
- Manager.Create: an `OSError` from `mkdir` itself, such as a permission failure, is not modelled. `Create` fails only on a path that names a regular file.
- `mkdir(parents=True)` creating missing parent directories is not modelled. Paths are flat keys of the file system.
- Manager.Save: the `OSError` message is the target path, not the OS's wording.
- Embedders.MakeEmbedder: the `TypeError` messages keep their first sentence and drop the `Got ... instead.` suffix, which depends on the repr of the argument.
- `bocoel/core/exams/columns.py` is not part of this model. The eight identifier column names are placeholders. The model relies only on their being distinct.
- `StrEnum.lookup` is not part of this model. It is taken as an exact match on the member values. Any unknown name fails with `ValueError`, whether `lookup` or the final `case _` raises it.
- Embedders.MakeEmbedder: the unknown-name `ValueError` carries the message that `case _` builds. This assumes `lookup` returns no member rather than raising with a message of its own.
- `common.correct_kwargs` is not part of this model. The embedder classes are external, and an embedder is represented by the arguments it is constructed with.
- An optimizer that never exhausts, under `steps = None`, makes the source loop forever. The optimizer here replays a finite script, so that case is not modelled.
- Failures inside `step()` other than `StopIteration` are not modelled. In the source they propagate out of `run`.
- The FAISS index backend, the Hugging Face tokenizers, the BLEU score, the language-model protocol and the corpus factory are not part of this model. They wrap external libraries and hold no logic of the manager.
