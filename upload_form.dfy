/** The upload page (src/pages/upload/upload-file-page.tsx): the three
    validation tests on the selected files, the submit-enabled condition,
    the upload status set by the mutation callbacks, and `mergeRefs`, which
    hands the file input element to several refs. */
module UploadForm {
  import opened Js

  /** The part of a browser `File` the page reads. */
  datatype File = File(name: string, mimeType: string, size: nat)

  const AllowedFileTypes: seq<string> := ["application/pdf"]
  const MaxFileSize: nat := 10 * 1024 * 1024

  const FileRequiredMessage := "A file is required"
  const FileTypeMessage := "Unsupported file format"
  const FileSizeMessage := "File size must not exceed 10 MB"
  const UploadFailedMessage := "Failed to upload file. Please try again."

  /** The value of the `file` field: no `FileList` at all, or a list of
      files, possibly empty. */
  type Selection = Option<seq<File>>

  /** `value && value instanceof FileList && value.length > 0`. */
  predicate HasFile(sel: Selection) {
    sel.Some? && |sel.value| > 0
  }

  /** The `fileRequired` test. */
  predicate FileRequired(sel: Selection) {
    HasFile(sel)
  }

  /** The `fileType` test: only the first file is looked at, and it passes
      when nothing is selected. */
  predicate FileTypeOk(sel: Selection) {
    HasFile(sel) ==> sel.value[0].mimeType in AllowedFileTypes
  }

  /** The `fileSize` test, inclusive of the bound. */
  predicate FileSizeOk(sel: Selection) {
    HasFile(sel) ==> sel.value[0].size <= MaxFileSize
  }

  datatype FieldError = RequiredError | TypeError | SizeError

  function ErrorMessage(e: FieldError): (m: string)
    ensures m != ""
  {
    match e
    case RequiredError => FileRequiredMessage
    case TypeError => FileTypeMessage
    case SizeError => FileSizeMessage
  }

  /** `errors.file` after validation: the first failing test, in the order
      the schema declares them, or none. */
  function Validate(sel: Selection): (r: Option<FieldError>)
    ensures r.None? <==> FileRequired(sel) && FileTypeOk(sel) && FileSizeOk(sel)
    ensures r == Some(RequiredError) <==> !FileRequired(sel)
    ensures r == Some(TypeError) <==> FileRequired(sel) && !FileTypeOk(sel)
    ensures r == Some(SizeError) <==> FileRequired(sel) && FileTypeOk(sel) && !FileSizeOk(sel)
  {
    if !FileRequired(sel) then Some(RequiredError)
    else if !FileTypeOk(sel) then Some(TypeError)
    else if !FileSizeOk(sel) then Some(SizeError)
    else None
  }

  /** With nothing selected, the type and size tests pass and only the
      required test fails. */
  lemma EmptySelectionFailsOnlyRequired(sel: Selection)
    requires sel.None? || sel.value == []
    ensures !FileRequired(sel) && FileTypeOk(sel) && FileSizeOk(sel)
    ensures Validate(sel) == Some(RequiredError)
  {
  }

  /** The size bound admits exactly 10 MiB and rejects one byte more. */
  lemma SizeBoundInclusive(name: string, mimeType: string)
    ensures MaxFileSize == 10485760
    ensures FileSizeOk(Some([File(name, mimeType, MaxFileSize)]))
    ensures !FileSizeOk(Some([File(name, mimeType, MaxFileSize + 1)]))
  {
  }

  /** Only the first file takes part in validation: whatever follows it
      does not change the verdict. */
  lemma OnlyFirstFileValidated(first: File, rest: seq<File>, other: seq<File>)
    ensures Validate(Some([first] + rest)) == Validate(Some([first] + other))
    ensures Validate(Some([first] + rest)).None? <==>
      first.mimeType == "application/pdf" && first.size <= MaxFileSize
  {
  }

  /** The submit button's `disabled`: pending, no file, or an error shown. */
  predicate SubmitDisabled(isPending: bool, sel: Selection, shown: Option<FieldError>) {
    isPending || !HasFile(sel) || shown.Some?
  }

  /** Once the selection is validated, submit is enabled exactly when no
      upload is pending and the first file is a PDF of at most 10 MiB. */
  lemma SubmitEnabledIff(isPending: bool, sel: Selection)
    ensures !SubmitDisabled(isPending, sel, Validate(sel)) <==>
      !isPending && sel.Some? && |sel.value| > 0
      && sel.value[0].mimeType == "application/pdf" && sel.value[0].size <= MaxFileSize
  {
  }

  datatype UploadStatus = Idle | Succeeded | Failed

  datatype PageState = PageState(selection: Selection, shown: Option<FieldError>, pending: bool,
                                 status: UploadStatus, errorMessage: Option<string>,
                                 uploads: seq<File>, refetches: nat, navigatedTo: Option<string>)

  /** The page's state: `selection` is the watched `file` field, `shown`
      the field error on display, `pending` the mutation's `isPending`,
      `uploads` the files handed to the create-conversation mutation,
      `refetches` the refetches of the conversation list and `navigatedTo`
      the last route navigated to. */
  class UploadPage {
    var selection: Selection
    var shown: Option<FieldError>
    var pending: bool
    var status: UploadStatus
    var errorMessage: Option<string>
    var uploads: seq<File>
    var refetches: nat
    var navigatedTo: Option<string>

    ghost function State(): PageState
      reads this
    {
      PageState(selection, shown, pending, status, errorMessage, uploads, refetches, navigatedTo)
    }

    /** Every upload started was of a file that passed validation. */
    ghost predicate Valid()
      reads this
    {
      forall i :: 0 <= i < |uploads| ==> Validate(Some([uploads[i]])).None?
    }

    constructor ()
      ensures Valid()
      ensures State() == PageState(None, None, false, Idle, None, [], 0, None)
    {
      selection := None;
      shown := None;
      pending := false;
      status := Idle;
      errorMessage := None;
      uploads := [];
      refetches := 0;
      navigatedTo := None;
    }

    /** The input's change event; the form validates on change. */
    method FilesChosen(sel: Selection)
      requires Valid()
      modifies this
      ensures Valid()
      ensures State() == old(State()).(selection := sel, shown := Validate(sel))
    {
      selection := sel;
      shown := Validate(sel);
    }

    /** The submit button, running `handleSubmit(onSubmit)`: a disabled
        button (pending, no file, or an error shown) does nothing; otherwise
        validation runs first, and only a valid form reaches `onSubmit`,
        which uploads the first file. */
    method Submit()
      requires Valid()
      modifies this
      ensures Valid()
      ensures SubmitDisabled(old(pending), old(selection), old(shown)) ==> State() == old(State())
      ensures !SubmitDisabled(old(pending), old(selection), old(shown)) && Validate(old(selection)).None? ==>
        State() == old(State()).(shown := None, pending := true,
                                 uploads := old(uploads) + [old(selection).value[0]])
      ensures !SubmitDisabled(old(pending), old(selection), old(shown)) && Validate(old(selection)).Some? ==>
        State() == old(State()).(shown := Validate(old(selection)))
    {
      if SubmitDisabled(pending, selection, shown) {
        return;
      }
      var verdict := Validate(selection);
      shown := verdict;
      if verdict.None? {
        var file := selection.value[0];
        OnlyFirstFileValidated(file, selection.value[1..], []);
        assert selection.value == [file] + selection.value[1..];
        pending := true;
        uploads := uploads + [file];
      }
    }

    /** The mutation's `onSuccess`: status success, the list refetched, a
        route to the new conversation, and the form reset. */
    method UploadSucceeded(conversationId: Option<string>)
      requires Valid()
      modifies this
      ensures Valid()
      ensures State() == old(State()).(status := Succeeded, pending := false,
                                       refetches := old(refetches) + 1,
                                       navigatedTo := Some(ChatRoute(conversationId)),
                                       selection := None, shown := None)
    {
      status := Succeeded;
      pending := false;
      refetches := refetches + 1;
      navigatedTo := Some(ChatRoute(conversationId));
      selection := None;
      shown := None;
    }

    /** The mutation's `onError`: status error with the fixed message; the
        selection is kept. */
    method UploadFailed()
      requires Valid()
      modifies this
      ensures Valid()
      ensures State() == old(State()).(status := Failed, pending := false,
                                       errorMessage := Some(UploadFailedMessage))
    {
      status := Failed;
      pending := false;
      errorMessage := Some(UploadFailedMessage);
    }
  }

  /** Pressing submit again while the first upload is pending uploads
      nothing more: the button is disabled. */
  method DoubleSubmitUploadsOnce() returns (uploaded: seq<File>, pending: bool)
    ensures uploaded == [File("book.pdf", "application/pdf", 1024)] && pending
  {
    var page := new UploadPage();
    page.FilesChosen(Some([File("book.pdf", "application/pdf", 1024)]));
    page.Submit();
    page.Submit();
    uploaded := page.uploads;
    pending := page.pending;
  }

  /** `/chat/${data?.data.id}`; a missing id prints as `undefined`. */
  function ChatRoute(conversationId: Option<string>): (r: string)
    ensures |r| >= 6 && r[..6] == "/chat/"
    ensures conversationId.Some? ==> r[6..] == conversationId.value
  {
    "/chat/" + (if conversationId.Some? then conversationId.value else "undefined")
  }

  /** Routes to different conversations differ. */
  lemma ChatRouteInjective(a: string, b: string)
    requires ChatRoute(Some(a)) == ChatRoute(Some(b))
    ensures a == b
  {
    PrefixedInjective("/chat/", a, b);
  }

  /** A mutable ref object (`{ current }`). */
  class RefBox<T> {
    var current: Option<T>

    constructor ()
      ensures current == None
    {
      current := None;
    }
  }

  /** One argument of `mergeRefs`: missing, a callback ref (identified by a
      number, its effect being outside the model) or a ref object. */
  datatype Ref<T> = NullRef | CallbackRef(callback: nat) | ObjectRef(box: RefBox<T>)

  /** A callback ref invoked with a value. */
  datatype Call<T> = Call(callback: nat, value: Option<T>)

  /** The ref objects among `refs`. */
  function Boxes<T>(refs: seq<Ref<T>>): set<RefBox<T>> {
    set i | 0 <= i < |refs| && refs[i].ObjectRef? :: refs[i].box
  }

  /** The callback refs among `refs`, called in order with `value`. */
  function CallbackCalls<T>(refs: seq<Ref<T>>, value: Option<T>): (r: seq<Call<T>>)
    ensures |r| <= |refs|
  {
    if refs == [] then []
    else CallbackCalls(refs[..|refs| - 1], value)
         + (if refs[|refs| - 1].CallbackRef? then [Call(refs[|refs| - 1].callback, value)] else [])
  }

  /** Every call carries the value, and a callback is called exactly when
      it is among the refs. */
  lemma {:induction false} CallbackCallsOnePerCallback<T>(refs: seq<Ref<T>>, value: Option<T>)
    ensures forall c :: c in CallbackCalls(refs, value) ==> c.value == value
    ensures forall c :: c in CallbackCalls(refs, value) <==>
      c.value == value && exists i :: 0 <= i < |refs| && refs[i] == CallbackRef(c.callback)
  {
    if refs != [] {
      var init := refs[..|refs| - 1];
      CallbackCallsOnePerCallback(init, value);
      assert forall i :: 0 <= i < |init| ==> init[i] == refs[i];
      forall c: Call<T> | c.value == value && (exists i :: 0 <= i < |refs| && refs[i] == CallbackRef(c.callback))
        ensures c in CallbackCalls(refs, value)
      {
        var i :| 0 <= i < |refs| && refs[i] == CallbackRef(c.callback);
        if i < |init| {
          assert init[i] == CallbackRef(c.callback);
        }
      }
    }
  }

  /** The positions of `refs` that hold the callback ref `k`. */
  function CallbackPositions<T>(refs: seq<Ref<T>>, k: nat): set<nat> {
    set i: nat | i < |refs| && refs[i] == CallbackRef(k)
  }

  /** Appending a ref adds its position to the callback's positions
      exactly when it is that callback. */
  lemma CallbackPositionsSnoc<T>(init: seq<Ref<T>>, last: Ref<T>, k: nat)
    ensures last == CallbackRef(k) ==>
      CallbackPositions(init + [last], k) == CallbackPositions(init, k) + {|init|}
    ensures last != CallbackRef(k) ==>
      CallbackPositions(init + [last], k) == CallbackPositions(init, k)
    ensures |init| !in CallbackPositions(init, k)
  {
    var refs := init + [last];
    forall i: nat | i < |init|
      ensures refs[i] == init[i]
    {
    }
  }

  /** Each callback ref is called once per position it holds among the
      refs, always with the value: a callback passed twice is called twice,
      one passed once is called once. */
  lemma {:induction false} CallbackCallsCount<T>(refs: seq<Ref<T>>, value: Option<T>, k: nat)
    ensures multiset(CallbackCalls(refs, value))[Call(k, value)] == |CallbackPositions(refs, k)|
  {
    if refs == [] {
      assert CallbackPositions(refs, k) == {};
    } else {
      var init := refs[..|refs| - 1];
      var last := refs[|refs| - 1];
      assert refs == init + [last];
      CallbackCallsCount(init, value, k);
      CallbackPositionsSnoc(init, last, k);
      var tail: seq<Call<T>> := if last.CallbackRef? then [Call(last.callback, value)] else [];
      assert multiset(CallbackCalls(refs, value)) == multiset(CallbackCalls(init, value)) + multiset(tail);
      assert multiset(tail)[Call(k, value)] == if last == CallbackRef(k) then 1 else 0;
    }
  }

  /** The ref callback `mergeRefs(...refs)` returns, applied to `value`:
      every ref object's `current` becomes `value`, each callback ref is
      called with it in order, and missing refs are skipped. */
  method MergeRefs<T>(refs: seq<Ref<T>>, value: Option<T>) returns (calls: seq<Call<T>>)
    modifies Boxes(refs)
    ensures forall b :: b in Boxes(refs) ==> b.current == value
    ensures calls == CallbackCalls(refs, value)
  {
    calls := [];
    var i := 0;
    while i < |refs|
      invariant 0 <= i <= |refs|
      invariant forall b :: b in Boxes(refs[..i]) ==> b.current == value
      invariant calls == CallbackCalls(refs[..i], value)
    {
      assert refs[..i + 1][..i] == refs[..i];
      assert Boxes(refs[..i + 1]) <= Boxes(refs[..i]) + (if refs[i].ObjectRef? then {refs[i].box} else {});
      match refs[i] {
        case NullRef =>
        case CallbackRef(callback) =>
          calls := calls + [Call(callback, value)];
        case ObjectRef(box) =>
          box.current := value;
      }
      i := i + 1;
    }
    assert refs[..|refs|] == refs;
  }
}
