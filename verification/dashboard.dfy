/**
 * The state of app/dashboard/page.tsx: the list of upload records, the
 * selected record, the uploading flag, the error banner and the route the
 * page asks the router for.
 *
 * The remote storage and database calls are not modelled: each handler
 * that waits on them takes what they answered as an argument, and runs as
 * one atomic step.
 */
module Dashboard {
  import opened Wrappers
  import AuthSession

  /** One stored image's metadata record, the `Upload` interface of app/dashboard/page.tsx. */
  datatype Upload = Upload(id: string, imageUrl: string, fileName: string, uploadedAt: string, username: string)

  /** The file the input hands over: its name and its declared MIME type. */
  datatype PickedFile = PickedFile(name: string, mimeType: string)

  /**
   * What the remote sequence (store the bytes, derive the view URL, write
   * the metadata document) answered: the new document's id, the view URL
   * and the document's timestamp, or the thrown error's `message` (`None`
   * when it has none).
   */
  datatype RemoteOutcome =
    | Created(documentId: string, imageUrl: string, uploadedAt: string)
    | Failed(message: Option<string>)

  const TypeRejectedError: string := "Please upload only JPG or PNG images"
  const UploadFailedFallback: string := "Failed to upload image. Please check your Appwrite configuration."
  const LoginRoute: string := "/login"

  // ---------------------------------------------------------------------
  // The file-type test `file.type.match(/image\/(jpeg|jpg|png)/)`
  // ---------------------------------------------------------------------

  /** `p` occurs somewhere in `s`. */
  ghost predicate Contains(s: string, p: string) {
    exists i :: 0 <= i <= |s| && p <= s[i..]
  }

  /** The types the pattern is meant for, found anywhere in `mimeType`. */
  ghost predicate MentionsAcceptedType(mimeType: string) {
    Contains(mimeType, "image/jpeg") || Contains(mimeType, "image/jpg") || Contains(mimeType, "image/png")
  }

  /** The pattern tried at position `i`: `image/` and one of the three alternatives. */
  predicate MatchesAt(s: string, i: nat)
    requires i <= |s|
  {
    var rest := s[i..];
    "image/jpeg" <= rest || "image/jpg" <= rest || "image/png" <= rest
  }

  /** The unanchored search: the pattern tried at `i`, `i + 1`, ... up to the end. */
  function SearchFrom(s: string, i: nat): (r: bool)
    requires i <= |s|
    ensures r <==> exists j :: i <= j <= |s| && MatchesAt(s, j)
    decreases |s| - i
  {
    if MatchesAt(s, i) then true
    else if i == |s| then false
    else SearchFrom(s, i + 1)
  }

  /** A match at some position is exactly an occurrence of one of the three types. */
  lemma SearchFindsAcceptedType(mimeType: string)
    ensures SearchFrom(mimeType, 0) <==> MentionsAcceptedType(mimeType)
  {
    if MentionsAcceptedType(mimeType) {
      var i :| 0 <= i <= |mimeType| && (
        || "image/jpeg" <= mimeType[i..]
        || "image/jpg" <= mimeType[i..]
        || "image/png" <= mimeType[i..]);
      assert MatchesAt(mimeType, i);
    }
  }

  /**
   * Whether `match` finds the pattern in the declared type. The pattern is
   * not anchored, so a type that merely contains an accepted type passes.
   */
  function AcceptsImageType(mimeType: string): (r: bool)
    ensures r <==> MentionsAcceptedType(mimeType)
  {
    SearchFindsAcceptedType(mimeType);
    SearchFrom(mimeType, 0)
  }

  /** Each of the three types is accepted as it stands. */
  lemma ExactTypesAccepted()
    ensures AcceptsImageType("image/jpeg") && AcceptsImageType("image/jpg") && AcceptsImageType("image/png")
  {
    assert "image/jpeg" <= "image/jpeg"[0..];
    assert "image/jpg" <= "image/jpg"[0..];
    assert "image/png" <= "image/png"[0..];
  }

  /** Every match holds the `g` of `image`, so a type without that letter is refused. */
  lemma AcceptedTypeContainsG(mimeType: string)
    ensures AcceptsImageType(mimeType) ==> 'g' in mimeType
  {
    if MentionsAcceptedType(mimeType) {
      var i :| 0 <= i <= |mimeType| && (
        || "image/jpeg" <= mimeType[i..]
        || "image/jpg" <= mimeType[i..]
        || "image/png" <= mimeType[i..]);
      var rest := mimeType[i..];
      var p :| p in {"image/jpeg", "image/jpg", "image/png"} && p <= rest;
      assert p[3] == 'g';
      assert rest[3] == p[3];
      assert mimeType[i + 3] == rest[3];
    }
  }

  /** The match is a substring test, not an equality test. */
  lemma LongerTypesAccepted()
    ensures AcceptsImageType("image/pngx")
    ensures AcceptsImageType("text/plain; image/jpeg")
  {
    assert "image/png" <= "image/pngx"[0..];
    assert "image/jpeg" <= "text/plain; image/jpeg"[12..];
  }

  /** A PDF is refused. */
  lemma PdfRejected()
    ensures !AcceptsImageType("application/pdf")
  {
    assert 'g' !in "application/pdf";
    AcceptedTypeContainsG("application/pdf");
  }

  /** `err.message || 'Failed to upload image. ...'`. */
  function FailureMessage(message: Option<string>): (r: string)
    ensures r != ""
    ensures message.Some? && message.value != "" ==> r == message.value
    ensures message.None? || message.value == "" ==> r == UploadFailedFallback
  {
    var m := message.GetOr("");
    if m != "" then m else UploadFailedFallback
  }

  // ---------------------------------------------------------------------
  // What the page shows
  // ---------------------------------------------------------------------

  /** The main pane: the upload prompt, or the selected image. Both hold a file input. */
  datatype Pane =
    | UploadPrompt(inputDisabled: bool)
    | Viewer(image: Upload, inputDisabled: bool)

  /** Nothing (the unauthenticated gate), or the page. */
  datatype View =
    | Blank
    | Page(signedInAs: string, entries: seq<Upload>, banner: Option<string>, pane: Pane)

  // ---------------------------------------------------------------------
  // The page
  // ---------------------------------------------------------------------

  class DashboardPage {
    /** The session the page reads through `useAuth()`. */
    const auth: AuthSession.AuthProvider
    var uploads: seq<Upload>
    var selectedImage: Option<Upload>
    var isUploading: bool
    var error: string
    /** The route most recently passed to `router.push`, if any. */
    var navigation: Option<string>

    /** The selected record, if any, is one of the listed records. */
    predicate SelectionListed()
      reads this
    {
      selectedImage.Some? ==> selectedImage.value in uploads
    }

    /** The page's initial state (app/dashboard/page.tsx, lines 20-23). */
    constructor (auth: AuthSession.AuthProvider)
      ensures this.auth == auth
      ensures uploads == [] && selectedImage == None && !isUploading && error == "" && navigation == None
    {
      this.auth := auth;
      uploads := [];
      selectedImage := None;
      isUploading := false;
      error := "";
      navigation := None;
    }

    /**
     * The effect that runs when the session changes: an unauthenticated
     * page asks for the login route; an authenticated one loads the list,
     * `listed` being what the server answered (`None` when it failed).
     */
    method OnSessionChange(listed: Option<seq<Upload>>)
      modifies this
      ensures !auth.isAuthenticated ==> navigation == Some(LoginRoute) && uploads == old(uploads)
      ensures auth.isAuthenticated ==> navigation == old(navigation)
      ensures auth.isAuthenticated ==> uploads == listed.GetOr(old(uploads))
      ensures selectedImage == old(selectedImage) && isUploading == old(isUploading) && error == old(error)
    {
      if !auth.isAuthenticated {
        navigation := Some(LoginRoute);
      } else {
        LoadUploads(listed);
      }
    }

    /** Replace the list with the server's, or keep it when the request failed. */
    method LoadUploads(listed: Option<seq<Upload>>)
      modifies this
      ensures uploads == listed.GetOr(old(uploads))
      ensures selectedImage == old(selectedImage) && isUploading == old(isUploading)
      ensures error == old(error) && navigation == old(navigation)
    {
      if listed.Some? {
        uploads := listed.value;
      }
    }

    /**
     * The file input's change handler. `file` is the first picked file
     * (`None` when nothing was picked) and `outcome` what the remote
     * sequence answers if it is started.
     */
    method HandleFileUpload(file: Option<PickedFile>, outcome: RemoteOutcome)
      modifies this
      ensures file.None? ==>
        && uploads == old(uploads) && selectedImage == old(selectedImage)
        && isUploading == old(isUploading) && error == old(error)
      ensures file.Some? && !AcceptsImageType(file.value.mimeType) ==>
        && error == TypeRejectedError
        && uploads == old(uploads) && selectedImage == old(selectedImage) && isUploading == old(isUploading)
      ensures file.Some? && AcceptsImageType(file.value.mimeType) ==> !isUploading
      ensures file.Some? && AcceptsImageType(file.value.mimeType) && outcome.Created? ==>
        && |uploads| == |old(uploads)| + 1 && uploads[1..] == old(uploads)
        && uploads[0].id == outcome.documentId && uploads[0].imageUrl == outcome.imageUrl
        && uploads[0].fileName == file.value.name && uploads[0].uploadedAt == outcome.uploadedAt
        && uploads[0].username == auth.username
        && selectedImage == Some(uploads[0]) && error == ""
      ensures file.Some? && AcceptsImageType(file.value.mimeType) && outcome.Failed? ==>
        && uploads == old(uploads) && selectedImage == old(selectedImage)
        && error == FailureMessage(outcome.message)
      ensures navigation == old(navigation)
      ensures old(SelectionListed()) ==> SelectionListed()
    {
      if file.None? {
        return;
      }
      if !AcceptsImageType(file.value.mimeType) {
        error := TypeRejectedError;
        return;
      }
      isUploading := true;
      error := "";
      StoreAndRecord(file.value, outcome);
      isUploading := false;
    }

    /**
     * The `try`/`catch` part of the handler. It starts only once the page
     * shows it is uploading and the previous error is cleared.
     */
    method StoreAndRecord(file: PickedFile, outcome: RemoteOutcome)
      requires isUploading && error == ""
      modifies this
      ensures outcome.Created? ==>
        && uploads == [Upload(outcome.documentId, outcome.imageUrl, file.name, outcome.uploadedAt, auth.username)] + old(uploads)
        && selectedImage == Some(uploads[0]) && error == ""
      ensures outcome.Failed? ==>
        uploads == old(uploads) && selectedImage == old(selectedImage) && error == FailureMessage(outcome.message)
      ensures isUploading && navigation == old(navigation)
    {
      match outcome
      case Created(documentId, imageUrl, uploadedAt) =>
        var newUpload := Upload(documentId, imageUrl, file.name, uploadedAt, auth.username);
        uploads := [newUpload] + uploads;
        selectedImage := Some(newUpload);
      case Failed(message) =>
        error := FailureMessage(message);
    }

    /** Clicking a list entry (only listed records can be clicked). */
    method Select(upload: Upload)
      requires upload in uploads
      modifies this
      ensures selectedImage == Some(upload) && SelectionListed()
      ensures uploads == old(uploads) && isUploading == old(isUploading)
      ensures error == old(error) && navigation == old(navigation)
    {
      selectedImage := Some(upload);
    }

    /** The viewer's Close button. */
    method Close()
      modifies this
      ensures selectedImage == None && SelectionListed()
      ensures uploads == old(uploads) && isUploading == old(isUploading)
      ensures error == old(error) && navigation == old(navigation)
    {
      selectedImage := None;
    }

    /** The Logout button: end the session and ask for the login route. */
    method HandleLogout()
      modifies this, auth
      ensures !auth.isAuthenticated && auth.username == ""
      ensures auth.storage == AuthSession.LoggedOutStorage(old(auth.storage))
      ensures navigation == Some(LoginRoute)
      ensures uploads == old(uploads) && selectedImage == old(selectedImage)
      ensures isUploading == old(isUploading) && error == old(error)
    {
      auth.Logout();
      navigation := Some(LoginRoute);
    }

    /**
     * What the page renders: nothing without a session; otherwise the
     * list, the error banner when there is an error, and the prompt or
     * the selected image, with the file input disabled while uploading.
     */
    function Render(): (v: View)
      reads this, auth
      ensures v.Blank? <==> !auth.isAuthenticated
      ensures v.Page? ==> v.signedInAs == auth.username && v.entries == uploads
      ensures v.Page? ==> v.banner == (if error != "" then Some(error) else None)
      ensures v.Page? ==> v.pane.inputDisabled == isUploading
      ensures v.Page? ==> (v.pane.Viewer? <==> selectedImage.Some?)
      ensures v.Page? && v.pane.Viewer? ==> selectedImage == Some(v.pane.image)
    {
      if !auth.isAuthenticated then Blank
      else
        Page(
          auth.username,
          uploads,
          if error != "" then Some(error) else None,
          match selectedImage
          case None => UploadPrompt(isUploading)
          case Some(image) => Viewer(image, isUploading))
    }
  }

  // ---------------------------------------------------------------------
  // Scenarios
  // ---------------------------------------------------------------------

  /**
   * "alice" signs in with PIN "1234" and uploads "cat.jpg" on a page with
   * an empty list: the list holds that one record, made out to "alice",
   * and it is the one on view.
   */
  method UploadCatScenario(documentId: string, imageUrl: string, uploadedAt: string)
    returns (listed: seq<Upload>, selected: Option<Upload>, uploading: bool)
    ensures |listed| == 1 && listed[0].fileName == "cat.jpg" && listed[0].id == documentId
    ensures listed[0].username == "alice"
    ensures selected == Some(listed[0]) && !uploading
  {
    AuthSession.ScenarioPins();
    AuthSession.ScenarioNames();
    var auth := new AuthSession.AuthProvider(map[]);
    var _ := auth.Login("alice", "1234");
    var page := new DashboardPage(auth);
    assert "image/jpeg" <= "image/jpeg"[0..];
    page.HandleFileUpload(Some(PickedFile("cat.jpg", "image/jpeg")), Created(documentId, imageUrl, uploadedAt));
    listed, selected, uploading := page.uploads, page.selectedImage, page.isUploading;
  }

  /**
   * On a signed-in page, a PDF is refused whatever the remote side would
   * have answered: the list stays, and the banner shows the refusal.
   */
  method UploadPdfScenario(before: seq<Upload>, outcome: RemoteOutcome)
    returns (listed: seq<Upload>, shownError: string, shown: View)
    ensures listed == before && shownError == TypeRejectedError
    ensures shown.Page? && shown.entries == before && shown.banner == Some(TypeRejectedError)
  {
    AuthSession.ScenarioPins();
    var auth := new AuthSession.AuthProvider(map[]);
    var _ := auth.Login("alice", "1234");
    var page := new DashboardPage(auth);
    page.LoadUploads(Some(before));
    PdfRejected();
    page.HandleFileUpload(Some(PickedFile("doc.pdf", "application/pdf")), outcome);
    listed, shownError := page.uploads, page.error;
    shown := page.Render();
  }

  /** While an upload runs, every file input the page renders is disabled. */
  lemma RenderDisablesInputWhileUploading(page: DashboardPage)
    requires page.isUploading && page.auth.isAuthenticated
    ensures page.Render().Page? && page.Render().pane.inputDisabled
  {
  }
}
