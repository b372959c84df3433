/**
 * The upload/cluster workflow of the browser client (frontend/src/App.js:80-154).
 * The seven `useState` fields are the fields of `SessionState`; each handler is
 * split into the part that runs before its `fetch` (a Start method) and the part
 * that runs once the reply or the exception arrives (a Finish method). The reply
 * is a parameter. Each step between two `await`s runs to completion before another
 * handler runs, and nothing checks whether a reply still belongs to the current file.
 */
module Session {
  import opened Wrappers
  import opened ClusterModel

  /** The selected browser file; only its identity matters here. */
  datatype FileRef = FileRef(name: string)

  /** The outcome of a `fetch` followed by `res.json()`. */
  datatype Reply<T> =
    | Ok(body: T)                    // res.ok, with the parsed body
    | NotOk(error: Option<string>)   // another status; the body's `error` field, if any
    | Threw                          // fetch or res.json() raised

  /** What `handleCluster` receives as `fileOverride`. */
  datatype Override =
    | OverrideName(name: string)  // the filename the upload handler chains with
    | ClickEvent                  // the Run Clustering button passes its click event

  /** What `fileOverride || filename` yields. */
  datatype ClusterTarget = Named(name: string) | EventObject

  /** The JSON body of a POST /cluster request. */
  datatype ClusterRequest = ClusterRequest(filename: string, numClusters: int)

  const InitialClusterCount := 6
  const SelectFileMessage := "Please select a file."
  const UploadStartedMessage := "File uploaded successfully! Running clustering..."
  const UploadFailedMessage := "Upload failed."
  const UploadErrorMessage := "Upload error."
  const UploadFirstMessage := "Please upload a file first."
  const ClusterDoneMessage := "Clustering completed successfully!"
  const ClusterFailedMessage := "Clustering failed."
  const ClusterErrorMessage := "Clustering error."

  /** `data.error || fallback`: the server's message unless it is missing or empty. */
  function ServerMessage(error: Option<string>, fallback: string): (m: string)
    ensures error.Some? && error.value != "" ==> m == error.value
    ensures error.None? || error.value == "" ==> m == fallback
    ensures fallback != "" ==> m != ""
  {
    if error.Some? && error.value != "" then error.value else fallback
  }

  /** The message a failed completion writes into `error`. */
  function FailureMessage<T>(reply: Reply<T>, fallback: string, thrown: string): (m: string)
    requires !reply.Ok?
    ensures reply.Threw? ==> m == thrown
    ensures reply.NotOk? && reply.error.Some? && reply.error.value != "" ==> m == reply.error.value
    ensures reply.NotOk? && (reply.error.None? || reply.error.value == "") ==> m == fallback
  {
    if reply.Threw? then thrown else ServerMessage(reply.error, fallback)
  }

  /** An event object is truthy; a filename is truthy unless empty. */
  predicate OverrideTruthy(o: Override) {
    o.ClickEvent? || o.name != ""
  }

  /** `fileOverride || filename`: None when both are falsy. */
  function ChooseTarget(fileOverride: Option<Override>, filename: string): (t: Option<ClusterTarget>)
    ensures t.None? <==> (fileOverride.None? || fileOverride.value == OverrideName("")) && filename == ""
    ensures fileOverride == Some(ClickEvent) ==> t == Some(EventObject)
    ensures fileOverride.Some? && fileOverride.value.OverrideName? && fileOverride.value.name != "" ==>
              t == Some(Named(fileOverride.value.name))
    ensures (fileOverride.None? || fileOverride.value == OverrideName("")) && filename != "" ==>
              t == Some(Named(filename))
  {
    if fileOverride.Some? && OverrideTruthy(fileOverride.value) then
      Some(if fileOverride.value.ClickEvent? then EventObject else Named(fileOverride.value.name))
    else if filename != "" then Some(Named(filename))
    else None
  }

  class SessionState {
    var file: Option<FileRef>
    var filename: string
    var numClusters: int
    var results: Option<ClusterResult>
    var loading: bool
    var error: string
    var success: string

    /** `setNumClusters` is never called, so the requested count stays at its initial value. */
    ghost predicate Valid()
      reads this
    {
      numClusters == InitialClusterCount
    }

    /** The Upload CSV button is enabled (`disabled={loading || !file}`). */
    predicate UploadEnabled()
      reads this
    {
      !loading && file.Some?
    }

    /** The Run Clustering button is enabled (`disabled={loading || !filename}`). */
    predicate ClusterEnabled()
      reads this
    {
      !loading && filename != ""
    }

    /** The initial `useState` values. */
    constructor ()
      ensures Valid()
      ensures file == None && filename == "" && results == None
      ensures !loading && error == "" && success == ""
      ensures !UploadEnabled() && !ClusterEnabled()
    {
      file := None;
      filename := "";
      numClusters := InitialClusterCount;
      results := None;
      loading := false;
      error := "";
      success := "";
    }

    /** `handleFileChange`: `selected` is `e.target.files[0]`, None when the dialog was cancelled. */
    method HandleFileChange(selected: Option<FileRef>)
      requires Valid()
      modifies this
      ensures Valid()
      ensures file == selected && filename == "" && results == None && error == ""
      ensures loading == old(loading) && success == old(success)
      ensures !ClusterEnabled()
      ensures UploadEnabled() <==> !loading && selected.Some?
    {
      file := selected;
      filename := "";
      results := None;
      error := "";
    }

    /** `handleUpload` up to its `fetch`; returns the file it sends, or None when it sends nothing. */
    method StartUpload() returns (sent: Option<FileRef>)
      requires Valid()
      modifies this
      ensures Valid()
      ensures sent == old(file)
      ensures file == old(file) && filename == old(filename) && results == old(results)
      ensures old(file).None? ==>
        && error == SelectFileMessage
        && loading == old(loading) && success == old(success)
      ensures old(file).Some? ==>
        && loading && error == "" && success == ""
        && !UploadEnabled() && !ClusterEnabled()
    {
      if file.None? {
        error := SelectFileMessage;
        sent := None;
        return;
      }
      loading := true;
      error := "";
      success := "";
      sent := file;
    }

    /**
     * The rest of `handleUpload`, given the reply to POST /upload (whose body is
     * the returned `filename`); returns the filename it schedules `handleCluster` with.
     */
    method FinishUpload(reply: Reply<string>) returns (chained: Option<string>)
      requires Valid()
      modifies this
      ensures Valid()
      ensures !loading
      ensures file == old(file) && results == old(results)
      ensures reply.Ok? ==>
        && filename == reply.body
        && success == UploadStartedMessage
        && error == old(error)
        && chained == Some(reply.body)
        && (ClusterEnabled() <==> reply.body != "")
      ensures !reply.Ok? ==>
        && filename == old(filename)
        && success == old(success)
        && error == FailureMessage(reply, UploadFailedMessage, UploadErrorMessage)
        && chained == None
    {
      match reply {
        case Ok(name) =>
          filename := name;
          success := UploadStartedMessage;
          chained := Some(name);
        case NotOk(err) =>
          error := ServerMessage(err, UploadFailedMessage);
          chained := None;
        case Threw =>
          error := UploadErrorMessage;
          chained := None;
      }
      loading := false;
    }

    /**
     * `handleCluster` up to its `fetch`; returns the request it sends, or None when
     * it sends nothing. A click event cannot be serialised: its target DOM node and
     * React's fiber refer to each other, so `JSON.stringify` raises inside the `try`
     * before `fetch`, and the `catch` and the final `setLoading(false)` run at once.
     */
    method StartCluster(fileOverride: Option<Override>) returns (request: Option<ClusterRequest>)
      requires Valid()
      modifies this
      ensures Valid()
      ensures file == old(file) && filename == old(filename) && results == old(results)
      ensures ChooseTarget(fileOverride, old(filename)).None? ==>
        && request.None?
        && error == UploadFirstMessage
        && loading == old(loading) && success == old(success)
      ensures ChooseTarget(fileOverride, old(filename)) == Some(EventObject) ==>
        && request.None?
        && error == ClusterErrorMessage && success == "" && !loading
      ensures ChooseTarget(fileOverride, old(filename)).Some? && ChooseTarget(fileOverride, old(filename)).value.Named? ==>
        && request == Some(ClusterRequest(ChooseTarget(fileOverride, old(filename)).value.name, InitialClusterCount))
        && loading && error == "" && success == ""
      ensures request.Some? <==> ChooseTarget(fileOverride, old(filename)).Some? && ChooseTarget(fileOverride, old(filename)).value.Named?
    {
      var target := ChooseTarget(fileOverride, filename);
      if target.None? {
        error := UploadFirstMessage;
        request := None;
        return;
      }
      loading := true;
      error := "";
      success := "";
      match target.value
      case Named(name) =>
        request := Some(ClusterRequest(name, numClusters));
      case EventObject =>
        // `JSON.stringify` raised: the `catch`, then `setLoading(false)`
        request := None;
        error := ClusterErrorMessage;
        loading := false;
    }

    /** The rest of `handleCluster`, given the reply to POST /cluster. */
    method FinishCluster(reply: Reply<ClusterResult>)
      requires Valid()
      modifies this
      ensures Valid()
      ensures !loading
      ensures file == old(file) && filename == old(filename)
      ensures reply.Ok? ==>
        && results == Some(reply.body)
        && success == ClusterDoneMessage
        && error == old(error)
      ensures !reply.Ok? ==>
        && results == old(results)
        && success == old(success)
        && error == FailureMessage(reply, ClusterFailedMessage, ClusterErrorMessage)
    {
      match reply {
        case Ok(body) =>
          results := Some(body);
          success := ClusterDoneMessage;
        case NotOk(err) =>
          error := ServerMessage(err, ClusterFailedMessage);
        case Threw =>
          error := ClusterErrorMessage;
      }
      loading := false;
    }

    /**
     * A click on Upload CSV followed, after a successful upload, by the scheduled
     * `handleCluster(data.filename)` (App.js:96-126 with 116-118). The deferred call
     * runs after `setLoading(false)`, so the upload has completed when clustering starts.
     */
    method UploadThenCluster(uploadReply: Reply<string>, clusterReply: Reply<ClusterResult>)
      returns (uploadSent: Option<FileRef>, clusterSent: Option<ClusterRequest>)
      requires Valid()
      modifies this
      ensures Valid()
      ensures uploadSent == old(file) && file == old(file)
      ensures old(file).None? ==>
        && clusterSent.None?
        && error == SelectFileMessage
        && filename == old(filename) && results == old(results)
        && loading == old(loading) && success == old(success)
      ensures old(file).Some? && !uploadReply.Ok? ==>
        && clusterSent.None?
        && error == FailureMessage(uploadReply, UploadFailedMessage, UploadErrorMessage)
        && filename == old(filename) && results == old(results)
        && !loading && success == ""
      ensures old(file).Some? && uploadReply.Ok? && uploadReply.body != "" ==>
        && clusterSent == Some(ClusterRequest(uploadReply.body, InitialClusterCount))
        && filename == uploadReply.body
        && !loading
        && (clusterReply.Ok? ==> results == Some(clusterReply.body) && success == ClusterDoneMessage && error == "")
        && (!clusterReply.Ok? ==>
              && results == old(results) && success == ""
              && error == FailureMessage(clusterReply, ClusterFailedMessage, ClusterErrorMessage))
    {
      clusterSent := None;
      uploadSent := StartUpload();
      if uploadSent.None? {
        return;
      }
      var chained := FinishUpload(uploadReply);
      if chained.Some? {
        clusterSent := StartCluster(Some(OverrideName(chained.value)));
        if clusterSent.Some? {
          FinishCluster(clusterReply);
        }
      }
    }

    /**
     * A click on Run Clustering: `handleCluster` receives the click event as its
     * override, which wins over any stored filename and cannot be serialised, so
     * no request leaves the browser and the click always ends in "Clustering error.".
     */
    method RunClusteringClick() returns (clusterSent: Option<ClusterRequest>)
      requires Valid()
      requires ClusterEnabled()  // `disabled={loading || !filename}`: a disabled button fires nothing
      modifies this
      ensures Valid()
      ensures clusterSent.None?
      ensures file == old(file) && filename == old(filename) && results == old(results)
      ensures !loading && error == ClusterErrorMessage && success == ""
    {
      clusterSent := StartCluster(Some(ClickEvent));
    }
  }

  /** While a request is in flight, both buttons are disabled. */
  lemma ButtonsDisabledWhileLoading(s: SessionState)
    requires s.loading
    ensures !s.UploadEnabled() && !s.ClusterEnabled()
  {
  }

  /**
   * Select trips.csv, upload it, the server stores it as trips_20240101.csv:
   * the chained request names the stored file and asks for six clusters.
   */
  method UploadScenario(clusterReply: Reply<ClusterResult>) returns (request: Option<ClusterRequest>, shown: string)
    ensures request == Some(ClusterRequest("trips_20240101.csv", 6))
    ensures clusterReply.Ok? ==> shown == ClusterDoneMessage
  {
    var s := new SessionState();
    s.HandleFileChange(Some(FileRef("trips.csv")));
    var _, sent := s.UploadThenCluster(Ok("trips_20240101.csv"), clusterReply);
    request := sent;
    shown := s.success;
  }

  /** The upload is refused with the server's message: it is shown, and no filename is kept. */
  method RejectedUploadScenario() returns (shown: string, filename: string, loading: bool, request: Option<ClusterRequest>)
    ensures shown == "unsupported file type" && filename == "" && !loading && request.None?
  {
    var s := new SessionState();
    s.HandleFileChange(Some(FileRef("trips.txt")));
    var _, sent := s.UploadThenCluster(NotOk(Some("unsupported file type")), Threw);
    shown, filename, loading, request := s.error, s.filename, s.loading, sent;
  }

  /**
   * Upload trips.csv and let the chained clustering succeed, then press Run
   * Clustering: the click sends nothing, shows "Clustering error.", and the
   * results of the chained run stay on screen.
   */
  method ManualClickScenario() returns (request: Option<ClusterRequest>, shown: string, loading: bool, results: Option<ClusterResult>)
    ensures request.None? && shown == ClusterErrorMessage && !loading
    ensures results == Some(ClusterResult(2, [(-1.28, 36.82), (-1.29, 36.83)], [], None, None))
  {
    var s := new SessionState();
    s.HandleFileChange(Some(FileRef("trips.csv")));
    var first := ClusterResult(2, [(-1.28, 36.82), (-1.29, 36.83)], [], None, None);
    var _, _ := s.UploadThenCluster(Ok("trips_20240101.csv"), Ok(first));
    request := s.RunClusteringClick();
    shown, loading, results := s.error, s.loading, s.results;
  }
}
