# Waste detection service: a Dafny model of its core

The service takes a photo of waste, detects objects in it with a YOLO model,
classifies each detected label as Recyclable, Non-Recyclable, Hazardous or
Unknown, and stages an annotated preview. A later confirmation moves the
preview to permanent storage, detects again on the raw upload, and inserts one
row into the `pickup_spots` ledger. That row earns one point per detection. A
points query sums a user's rows.

This project models that core in four modules:

- `Common` (common.dfy): the shared values (categories, model boxes, detection
  records) and the foreign code. OpenCV, the YOLO model, Python's `round` and
  `datetime.fromisoformat` become total functions in the `Externals` datatype.
  Each handler takes or holds them, so every handler is deterministic in them.
  `ModelBoxes` is the detector (decode, colour conversion, prediction): None when
  the bytes do not decode.
- `Detect` (detect.dfy): the helper file's own label lists, its classifier, and
  its detection loop. That loop draws nothing.
- `Ledger` (ledger.dfy): the `pickup_spots` table as a sequence of rows in
  insertion order. The points query's `WHERE user_id = ...` is `RowsOf`, and
  its `SUM(points)` is `TotalFor`.
- `WasteApi` (main.dfy): the service's label lists, classifier, and annotating
  detection loop. It also holds the class `Service`. Its fields are the three
  folders `uploads`, `temp` and `output`, each a map from file name to bytes,
  plus the ledger rows and the id counter. Its methods are the handlers.
  `Service.Valid()` is the invariant every handler keeps:
  - every staged or promoted name still has its raw upload;
  - a promoted name is never staged again;
  - ids are increasing;
  - a confirmed row's file is already in `output`;
  - a row from the plain upload carries 0 points and was never staged.

In these places the code may surprise a reader; the model follows the code:

- A confirmation whose staged file is missing fails with status 500, not 404.
  The handler's blanket `except` catches the 404 it raises.
- A user's pickups come back in no promised order. The query has no `ORDER BY`.
  So `UserPoints` promises the multiset of the user's rows, not a sequence.
- An undecodable upload still leaves its raw bytes in `uploads`. Only `temp`
  stays unchanged.
- Nothing checks that `x1 < x2` or `y1 < y2` in a box. The corners are passed
  through as the model gives them.

## Model

| member | source | states |
|---|---|---|
| Common.ModelBoxes | app/main.py:63-67 | the detector yields boxes exactly when the bytes decode |
| Common.Caption | app/main.py:85 | the caption is the label followed by ` (`, the category name and `)`: `{label} ({category})` |
| Common.DrawAll | app/main.py:84-86 | no records draw nothing; one record draws its box and caption once on the image |
| Common.DrawAllAppend | app/main.py:69-86 | drawing two record lists in turn is drawing their concatenation: each iteration draws on top of the previous ones |
| Detect.Classify | app/detect.py:10-17 | total; each of the three categories exactly for members of its list, Unknown exactly for labels in none of them |
| Detect.LabelListsDisjoint | app/detect.py:6-8 | no label is in two of the three lists, so the if-chain's order does not matter |
| Detect.DetectAndClassify | app/detect.py:19-41 | fails exactly when the image does not decode; otherwise one record per model box in model order, with label `names[cls]`, category `Classify(label)`, unrounded confidence and the four integer corners; no state changes |
| WasteApi.Classify | app/main.py:52-59 | the same membership characterisation over the service's own lists |
| WasteApi.LabelListsDisjoint | app/main.py:23-27 | the service's three lists are pairwise disjoint |
| WasteApi.ClassifyAgreesWithDetect | app/main.py:23-59 | the service's classifier and the helper's classifier agree on every label |
| WasteApi.Classified | app/main.py:70-82 | the record list has one entry per box in box order: label from the name table, its category, confidence rounded to two places, and the four corners |
| WasteApi.DetectAndClassifyBytes | app/main.py:62-88 | fails exactly when decoding fails; otherwise the records are `Classified` of the model boxes, and the image is the decoded image with every record's box and `{label} ({category})` caption drawn in list order |
| WasteApi.CountDetections | app/main.py:140-142 | re-detection yields one point per model box, and fails exactly when the upload does not decode |
| WasteApi.StagingName | app/main.py:97 | the stored name is the token, one `_`, then the original name unchanged |
| WasteApi.PickupTime | app/main.py:204 | the current time when `time` is missing or empty; None exactly when a non-empty `time` does not parse; otherwise the parsed time |
| WasteApi.StagingNameInjective | app/main.py:97 | with 32-digit hex tokens, `{hex}_{name}` names are equal exactly when token and original name are equal |
| WasteApi.StagingKeepsConsistent | app/main.py:97-101 | writing a fresh raw upload keeps the folder/ledger invariant |
| WasteApi.StagePreviewKeepsConsistent | app/main.py:105-107 | writing the preview of a stored upload into `temp` keeps the invariant when no row names the file and it is neither staged nor promoted |
| WasteApi.PromoteKeepsConsistent | app/main.py:133-137 | moving a staged name from `temp` to `output` keeps the invariant |
| WasteApi.InsertKeepsConsistent | app/main.py:147-164 | inserting a row with the next id keeps the invariant, given a confirmed row's file is in `output` and an uploaded row has 0 points and is unstaged |
| WasteApi.Service.Store | app/main.py:97-101 | a fresh name gets the raw bytes in `uploads`; no other folder or the ledger changes, and no row names it |
| WasteApi.Service.Stage | app/main.py:105-107 | the preview is written into `temp` under the upload's name; nothing else changes |
| WasteApi.Service.Insert | app/main.py:147-161 | appends exactly the given row under the next id, advances the id, leaves the folders alone; only the row's user's total changes, by its points |
| WasteApi.Service.constructor | app/main.py:14-20 | starts with three empty folders, an empty table and ids from 1 |
| WasteApi.Service.AnalyzeImage | app/main.py:91-117 | stores the raw bytes under `{hex}_{name}` in `uploads` in every case; when decoding fails, returns 500 and leaves `temp` unchanged; when encoding the preview fails, returns 500 and leaves `temp` unchanged; otherwise puts the annotated preview in `temp` under the same name and returns that name, the records and the preview URL; folders stay consistent |
| WasteApi.Service.Confirm | app/main.py:121-175 | a name not in `temp` fails with 500 (the 404 is caught) and changes nothing; otherwise the name is moved from `temp` to `output` before anything else; then it fails on undecodable upload or database failure with no row, or appends exactly one row (next id, the user, position, time, photo = the name, not disposed, points = number of model boxes of the raw upload) and returns that id and points; the user's total grows by those points and no other total changes |
| WasteApi.Service.ConfirmTwice | app/main.py:133-137 | a replay of a confirmation by anyone (any user, position, address, time) always fails, whatever happened to the first; the ledger then holds exactly the row the first one inserted, or no new row |
| WasteApi.Service.GetTempImage | app/main.py:178-183 | the staged bytes exactly when the name is in `temp`, else 404 |
| WasteApi.Service.UploadImage | app/main.py:187-233 | stores the raw bytes in every case; fails when a non-empty `time` does not parse or the database fails, with no row; otherwise appends one row with 0 points and the parsed or current time; no user's total changes |
| WasteApi.Service.UserPoints | app/main.py:236-266 | the total is the sum of points over the user's rows (0 when there are none); the pickups are exactly the user's rows, as a multiset: each of the user's rows as often as the table holds it, no other row; the total equals the sum over the listed pickups |
| WasteApi.Service.GetImage | app/main.py:269-274 | the promoted bytes exactly when the name is in `output`, else 404 |
| Ledger.RowsOf | app/main.py:253-254 | the filtered rows all belong to the user and come from the table, and every row of the user is among them |
| Ledger.TotalFor | app/main.py:242-258 | a user's `SUM(points)` over their rows never exceeds the points of the whole table |
| Ledger.RowsOfCounts | app/main.py:253-254 | the filter is exact: each row of the user appears as often as in the table, and no other row appears |
| Ledger.SumPointsAppend | app/main.py:243 | the sum of points is additive over concatenation |
| Ledger.RowsOfAppend | app/main.py:253-254 | filtering by user distributes over concatenation |
| Ledger.TotalForAppend | app/main.py:242-258 | a user's total over a table split in two is the sum of the two parts' totals |
| Ledger.TotalAfterInsert | app/main.py:147-161 | inserting one row raises only its own user's total, by its points |
| Ledger.NoRowsNoPoints | app/main.py:257-259 | a user with no rows gets an empty list and a total of 0 |
| Ledger.SumPointsPermutation | app/main.py:243-252 | the sum of points does not depend on row order, so the unordered list always sums to the total |

## Left out

- The YOLO model, `model.names`, and OpenCV's decode, colour conversion, drawing and `imwrite` encoding are not modelled. They are function values in `Externals`. The name table is total, because the model only emits class ids it names.
- Float arithmetic is left out: `int()` truncation of box corners, `round(conf, 2)`, and latitude and longitude. Corners arrive as integers, rounding is the opaque `round2`, and positions are carried reals.
- `uuid.uuid4()` is left out. `AnalyzeImage` and `UploadImage` take the hex token as a parameter and require the resulting name to be in no folder.
- `datetime.now()` is a parameter. `datetime.fromisoformat` is the opaque `parseIsoTime`.
- The PostgreSQL connection, its SQL text and its credentials are left out. An unavailable database is the `dbUp` flag of the two inserting handlers. The read-only points query is total.
- Storage write failures are left out: a folder write always succeeds. This includes an `imwrite` that returns False instead of raising.
- File paths are opaque keys. Path separators or `..` in a file name are not modelled.
- Atomicity of `shutil.move` under concurrent requests is left out. The model is sequential.
- FastAPI routing, CORS, `FileResponse` and the exact detail strings are left out. Errors are 404 (`NotFound`) or 500 with a cause.
- Each listed pickup is a whole `PickupSpot` row. The service's JSON item carries every column except `user_id`, which is the queried user for every listed row.
- Ledger.RowsOf: its own contract states membership both ways. How often each row appears is stated by the lemma `Ledger.RowsOfCounts` instead, because that clause in the function's contract makes every proof that uses the function too slow.
- The model starts from a first deployment: `Service`'s constructor begins with empty folders, an empty table and ids from 1. The source's `os.makedirs(..., exist_ok=True)` keeps files already present, and the table is created outside the service; any state that satisfies `Service.Valid()` is a valid starting point for the handlers.
- app/main copy.py is not part of this model. It is an alternate entry point that calls the helper file's detection loop.
