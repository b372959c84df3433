# Transport clustering workflow — a Dafny model

This project models the decision logic of a small transport-analysis web
application. A user uploads a CSV of pickup coordinates, and the browser
immediately asks the server to cluster it. The server picks the number of
clusters k itself and returns the cluster assignment, which the browser shows
in a two-tab panel. Three pieces are modelled and proved:

- **The browser session** (`session.dfy`, module `Session`). The seven state
  fields of the React `App` component are the fields of class `SessionState`.
  Each handler (`handleFileChange`, `handleUpload`, `handleCluster`) is a method
  that changes those fields. Each network handler is split in two: a `Start…`
  method runs up to the `fetch`, and a `Finish…` method runs once the reply
  arrives. The reply is a parameter: `Ok(body)`, `NotOk(error)` or `Threw`.
  `UploadThenCluster` chains the two handlers the way the deferred
  `handleCluster(data.filename)` call does. `RunClusteringClick` is the manual
  button. That button passes its click event as the override. The event wins
  over the stored filename and cannot be turned into JSON, so the click sends
  no request and ends in "Clustering error.".
- **The result presenter** (`presenter.dfy`, module `Presenter`). It holds the
  tab state, the blocks shown for a tab and a result, and the histogram of
  `cluster` labels. The histogram is built by an imperative fold
  (`CountClusters`), which is proved equal to a specification fold (`Counts`).
  Lemmas prove what that fold means: every label has a key, each key's value is
  the label's number of occurrences, and the values sum to the number of records.
- **The server** (`backend.dfy`, module `Backend`, and `k_selection.dfy`,
  module `KSelection`). This covers the file-name check, the early-return
  validation of `/upload`, `/cluster` and `/cluster-api-data`, and the
  coordinate cleaning. It also covers the choice of k: `max_k` and the `best_k`
  loop. The loop is proved against an independent statement of its rule. The
  rule picks the smallest k whose score is the maximum and above -1, or 2 when
  no score is above -1.

`cluster_model.dfy` holds the shape of the clustering response as the browser
stores it. `wrappers.dfy` holds `Option` and `Result`.

The model follows the code as written:

- No completion is discarded as stale. A reply that arrives after the user has
  picked another file still writes its fields.
- `numClusters` is never changed after it starts at 6, so every request carries
  6. The server ignores the value anyway.
- A failed clustering call keeps the previous `results`.
- A failed upload leaves `filename` unchanged.
- The manual Run Clustering button passes its click event as the filename.
  `JSON.stringify` raises on the event, because its target DOM node and React's
  fiber refer to each other. The `catch` then shows "Clustering error.", no
  request is sent, and `results` stays as it was.
- On the visuals tab, the "no visuals" placeholder and the results block can
  both show. The server never sends `plots`, so the placeholder always shows.

## Model

| member | source | states |
|---|---|---|
| `Session.SessionState.constructor` | frontend/src/App.js:81-87 | Initial state: no file, empty filename, no results, not loading, no messages, cluster count 6. Both buttons start disabled. |
| `Session.SessionState.HandleFileChange` | frontend/src/App.js:89-94 | Stores the selected file and clears `filename`, `results` and `error`. Leaves `loading` and `success` unchanged. Afterwards Run Clustering is disabled, and Upload is enabled iff nothing is loading and a file was picked. |
| `Session.SessionState.StartUpload` | frontend/src/App.js:96-103 | With no file: sets error "Please select a file.", sends nothing, and changes no other field. With a file: sends that file, sets `loading`, clears both messages, and both buttons become disabled. |
| `Session.SessionState.FinishUpload` | frontend/src/App.js:111-125 | Every path ends with `loading` false. Success: stores the server's filename, sets the "Running clustering..." message, and schedules clustering with exactly that name. Failure: the error is the server's message, else "Upload failed.", or "Upload error." on an exception. Failure leaves `filename` and `results` untouched and schedules nothing. |
| `Session.SessionState.StartCluster` | frontend/src/App.js:128-153 | Without a truthy override or stored filename: sets "Please upload a file first.", sends nothing, and leaves `loading` and `success` unchanged. With a click event as the target: the body cannot be serialised, so nothing is sent, the error is "Clustering error.", `success` is cleared and `loading` ends false. With a name: sends `{filename: name, num_clusters: 6}`, sets `loading` and clears both messages. A request is sent iff the target is a name. |
| `Session.SessionState.FinishCluster` | frontend/src/App.js:143-153 | `loading` ends false. Success replaces `results` wholesale and sets "Clustering completed successfully!". Failure keeps the previous `results`. Its error is the server's message, else "Clustering failed.", or "Clustering error." on an exception. |
| `Session.SessionState.UploadThenCluster` | frontend/src/App.js:96-126 | Without a file, nothing is sent. A failed upload issues no clustering request. After a successful upload, a clustering request is issued, only after the upload has finished. Its filename is exactly the one the server returned, and it asks for 6 clusters. The final state follows the clustering reply. |
| `Session.SessionState.RunClusteringClick` | frontend/src/App.js:128-174 | The button can only be clicked when enabled: not loading and a non-empty `filename`. Whatever that filename is, the click sends no request. It always ends with "Clustering error.", no success message, `loading` false, and `results`, `file` and `filename` unchanged. |
| `Session.ChooseTarget` | frontend/src/App.js:128-130 | The override when truthy, else the stored filename. No target iff both are falsy. A click event always wins. A non-empty override name wins over the stored name. |
| `Session.FailureMessage` | frontend/src/App.js:119-124 | The shown error is the exception text on `Threw`. On `NotOk` it is the server's `error` when that is non-empty, else the fallback. |
| `Session.ButtonsDisabledWhileLoading` | frontend/src/App.js:170-174 | While `loading` is true, neither button is enabled. |
| `Session.UploadScenario` | frontend/src/App.js:112-118 | A file stored as "trips_20240101.csv" is clustered with request `{filename: "trips_20240101.csv", num_clusters: 6}`. |
| `Session.RejectedUploadScenario` | frontend/src/App.js:119-125 | An upload refused with "unsupported file type" shows that message, keeps `filename` empty, ends not loading, and requests no clustering. |
| `Session.ManualClickScenario` | frontend/src/App.js:128-174 | After an upload whose chained clustering succeeded, pressing Run Clustering sends nothing, shows "Clustering error.", ends not loading, and keeps the earlier results. |
| `Presenter.TransportAnalysis.constructor` | frontend/src/components/TransportAnalysis.js:4 | The tab starts as visuals. |
| `Presenter.TransportAnalysis.SelectVisuals` | frontend/src/components/TransportAnalysis.js:16 | The first button sets the tab to visuals and changes nothing else. |
| `Presenter.TransportAnalysis.SelectInfo` | frontend/src/components/TransportAnalysis.js:30 | The second button sets the tab to info and changes nothing else. |
| `Presenter.CountClusters` | frontend/src/components/TransportAnalysis.js:58-60 | The in-place `reduce` computes the fold `Counts` over `clustered`. A missing `clustered` counts as empty. |
| `Presenter.CountsAreOccurrences` | frontend/src/components/TransportAnalysis.js:58-60 | A label has a key iff some record carries it. Each key's value is its number of occurrences. |
| `Presenter.CountsSumToLength` | frontend/src/components/TransportAnalysis.js:58-60 | The values of the count map sum to the number of records. |
| `Presenter.TotalBump` | frontend/src/components/TransportAnalysis.js:59 | Counting one more record raises the sum of the counts by exactly one, whether or not its label was new. |
| `Presenter.MissingClusteredGivesNoCounts` | frontend/src/components/TransportAnalysis.js:58 | A missing `clustered` yields the empty map, not an error. |
| `Presenter.Render` | frontend/src/components/TransportAnalysis.js:44-73 | The placeholder shows iff the tab is visuals and the result is null or has no truthy `plots`. The results block shows iff the tab is visuals and a result exists. The block carries k, the centers, and counts that match occurrences and sum to the record count. The info items show iff the tab is info. |
| `Presenter.InfoIgnoresResults` | frontend/src/components/TransportAnalysis.js:67-73 | The info tab renders the same for every result. |
| `Presenter.PlaceholderBesideResults` | frontend/src/components/TransportAnalysis.js:46-56 | A result without `plots` shows the placeholder and the results block together. |
| `Backend.AllowedFile` | backend/app.py:28-29 | A name is accepted iff it ends in a dot followed by c, s and v, each in either case. So "a.CSV" and ".csv" pass, and "csv" and "a.csv.txt" fail. |
| `Backend.AllowedFileExamples` | backend/app.py:28-29 | Concrete accepted and refused names. |
| `Backend.UploadFile` | backend/app.py:35-61 | The first failing check decides: unwritable folder 500, no part 400, empty name 400, bad extension or no name 400, failed save 500. Status 200 iff all checks pass, and the reply then carries the submitted name unchanged. |
| `Backend.UploadEchoesName` | backend/app.py:49-55 | Every accepted name is non-empty and is echoed unchanged. |
| `Backend.Clean` | backend/app.py:95-96 | Output points have no zero coordinate. Every row with both coordinates present and non-zero appears in the output. Nothing is dropped iff every row passes. |
| `Backend.CleanAppend` | backend/app.py:95-96 | Cleaning distributes over concatenation, so rows keep their order. |
| `Backend.CleanOne` | backend/app.py:95-96 | A single row is kept with its two values exactly when both are present and non-zero. |
| `Backend.ClusterGuards` | backend/app.py:75-99 | Checks run in order: missing or empty filename 400 "No filename provided", unknown file 404 "File not found", unreadable CSV 400 with the reader's details, missing column 400 "Missing required columns: lat, lon", no row left after cleaning 400 "No valid data points after cleaning". Success iff all pass, carrying the cleaned points. |
| `Backend.ClusterGuardsIgnoreCount` | backend/app.py:75-78 | The `num_clusters` the client sends does not affect the outcome. |
| `Backend.Cluster` | backend/app.py:64-136 | Guard failures pass through. One cleaned point gives a 500, because the first KMeans fit raises. Otherwise the reply is 200 with the cleaned points. Its `num_clusters` follows the selection rule and lies in [2, 10], never above the point count. |
| `KSelection.MaxK` | backend/app.py:104-105 | `max_k` is between 2 and 10. It is n-1 for 4 <= n <= 11, 10 above that, and 2 for n <= 3. |
| `KSelection.SelectBestK` | backend/app.py:106-122 | The loop returns the smallest k in [2, max_k] whose score is maximal and above -1, or 2 when none is. Its `scores` list holds the kept scores in ascending k. |
| `KSelection.BestKIsUnique` | backend/app.py:106-123 | The selection rule determines k uniquely. |
| `KSelection.BestKBounds` | backend/app.py:104-123 | With at least two rows, the chosen k lies in [2, 10] and does not exceed the row count. |
| `KSelection.TrialsFitRowCount` | backend/app.py:105-111 | With at least two rows, every k the loop tries is at most the row count. |
| `Backend.RequestedClusters` | backend/app.py:151 | The count defaults to 6. Integers, booleans and strings that spell an integer are kept as that integer (`True` is 1). Floats are truncated toward zero. Values `int()` refuses, such as "2.5", "abc", `null`, lists and objects, make it raise. |
| `Backend.ColumnsOne` | backend/app.py:157-158 | A frame built from one record has exactly that record's keys as columns. |
| `Backend.ColumnsAppend` | backend/app.py:157-158 | The columns of a frame built from two batches of records are the union of the two batches' columns. So a column is missing only when no record has it. |
| `Backend.ClusterApiData` | backend/app.py:147-178 | An unconvertible count gives 500. Then: no records 400, missing column 400, fewer cleaned rows than requested clusters 400. With enough rows and at least one cluster requested, the reply is 200 with the cleaned points. |

## Left out

- The React rendering: styles, the spinner, headers, the footer and the
  results section of `App` (App.js:5-78, 157-198). These are presentation only.
- `fetch`, `FormData`, `res.json()` and `setTimeout`. Each network call is a
  `Reply` parameter of its `Finish…` method. Each step between two `await`s
  runs to completion before another handler runs. There is no concurrency
  control in the code to model.
- `Session.SessionState.UploadThenCluster`: if the server returned an empty
  filename, the chained call would fall back to a `filename`. The model reads
  the current field; the code reads the value its closure captured. The server
  never returns an empty name, because of app.py:45.
- `Backend.Lower`: lower-cases only ASCII letters. No other character
  lower-cases to 'c', 's' or 'v', so `AllowedFile` still matches the code.
- `Backend.Cluster`: the reply omits `centers`, `labels` and `clustered`. These
  are KMeans output. The silhouette scores are the abstract `score` parameter.
- `Backend.ClusterApiData`: the reply omits `centers`, `labels` and
  `clustered`. Library failures after the checks are collapsed into one 500.
- `Backend.ClusterGuards`: does not model a lat column that equals the lon
  column, or non-numeric cells. Both depend on pandas behaviour.
- `Backend.Clean`, `Backend.Cluster`, `Backend.ClusterApiData`: cells are
  `real`, so a cell that pandas reads as infinity ("inf") is not modelled.
  Such a row survives `dropna()` and the non-zero filter. `StandardScaler`
  then raises on it (app.py:100-101, 166-167), and the request ends in an
  uncaught 500. For those rows the model answers 200 instead.
- `Backend.ClusterGuards`: an absolute filename escaping the upload folder
  through `os.path.join` is not modelled. The folder is a map from names to
  contents.
- KMeans, StandardScaler, `silhouette_score` and `inverse_transform`
  (app.py:100-127, 166-171). These are floating-point library numerics.
- `serve_plot`, `sample_data`, logging, CORS and `app.run` (app.py:1-26,
  139-143, 180-181). These are I/O and framework plumbing.
- A request body that is not JSON, and JSON values of unexpected types (a
  numeric `filename`, a `null` column name).
- Float formatting with `toFixed(6)` and the `JSON.stringify` layout of centers
  and counts. JavaScript turns the label keys into strings, which does not
  change which labels are distinct.
