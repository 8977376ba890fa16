/**
 * The submission upload form (components/submissions/submission-upload-form.tsx):
 * a list of selected files guarded by a file-count limit and a total-size
 * limit, removal of a file by identity, and the submit request built from
 * the list.
 */
module UploadForm {
  import opened Wrappers

  /** A browser `File`: compared by identity, as `!==` does in the source. */
  class UploadFile {
    const name: string
    const size: nat

    constructor(name: string, size: nat)
      ensures this.name == name && this.size == size
    {
      this.name := name;
      this.size := size;
    }
  }

  /** `uploadLimits`: at most `maxNum` files and at most `maxSizeMb` mebibytes in total. */
  datatype UploadLimits = UploadLimits(maxNum: int, maxSizeMb: int)

  const BytesPerMb: int := 1024 * 1024

  /** `reduce((acc, file) => acc + file.size, 0)`. */
  function TotalSize(files: seq<UploadFile>): nat {
    if files == [] then 0 else TotalSize(files[..|files| - 1]) + files[|files| - 1].size
  }

  lemma {:induction false} TotalSizeConcat(a: seq<UploadFile>, b: seq<UploadFile>)
    ensures TotalSize(a + b) == TotalSize(a) + TotalSize(b)
    decreases |b|
  {
    if b == [] {
      assert a + b == a;
    } else {
      var init := b[..|b| - 1];
      assert (a + b)[..|a + b| - 1] == a + init;
      TotalSizeConcat(a, init);
    }
  }

  predicate WithinLimits(files: seq<UploadFile>, limits: UploadLimits) {
    |files| <= limits.maxNum && TotalSize(files) <= limits.maxSizeMb * BytesPerMb
  }

  /** The verdict on a drop; the two rejections are the two destructive toasts. */
  datatype DropOutcome = Accepted | TooManyFiles | TooLarge

  /** `onDrop`'s checks: the count is checked first, then the combined size. */
  function DropCheck(files: seq<UploadFile>, accepted: seq<UploadFile>, limits: UploadLimits): (r: DropOutcome)
    ensures r == Accepted <==> WithinLimits(files + accepted, limits)
    ensures r == TooManyFiles <==> |files| + |accepted| > limits.maxNum
  {
    if |files| + |accepted| > limits.maxNum then TooManyFiles
    else if TotalSize(files + accepted) > limits.maxSizeMb * BytesPerMb then TooLarge
    else Accepted
  }

  /** The list after a drop: the new files follow the old ones, or nothing changes. */
  function AfterDrop(files: seq<UploadFile>, accepted: seq<UploadFile>, limits: UploadLimits): seq<UploadFile> {
    if DropCheck(files, accepted, limits) == Accepted then files + accepted else files
  }

  /** `files.filter(file => file !== f)`. */
  function Without(files: seq<UploadFile>, f: UploadFile): (r: seq<UploadFile>)
    ensures |r| <= |files|
    ensures forall k :: 0 <= k < |r| ==> r[k] in files && r[k] != f
    ensures forall k :: 0 <= k < |files| && files[k] != f ==> files[k] in r
    ensures multiset(r) == multiset(files)[f := 0]
  {
    if files == [] then []
    else
      var rest := Without(files[..|files| - 1], f);
      var last := files[|files| - 1];
      assert files == files[..|files| - 1] + [last];
      assert multiset(files) == multiset(files[..|files| - 1]) + multiset{last};
      if last == f then rest else rest + [last]
  }

  /** On one file the filter keeps it exactly when it is not the removed one; with `WithoutConcat` this fixes the result, order included. */
  lemma WithoutSingle(x: UploadFile, f: UploadFile)
    ensures Without([x], f) == if x == f then [] else [x]
  {
    assert [x][..0] == [];
  }

  /** Filtering distributes over concatenation: the kept files stay in their order. */
  lemma {:induction false} WithoutConcat(a: seq<UploadFile>, b: seq<UploadFile>, f: UploadFile)
    ensures Without(a + b, f) == Without(a, f) + Without(b, f)
    decreases |b|
  {
    if b == [] {
      assert a + b == a;
    } else {
      var init := b[..|b| - 1];
      assert (a + b)[..|a + b| - 1] == a + init;
      WithoutConcat(a, init, f);
    }
  }

  lemma {:induction false} WithoutAbsent(files: seq<UploadFile>, f: UploadFile)
    requires f !in files
    ensures Without(files, f) == files
  {
    if files != [] {
      assert files == files[..|files| - 1] + [files[|files| - 1]];
      WithoutAbsent(files[..|files| - 1], f);
    }
  }

  lemma {:induction false} WithoutSize(files: seq<UploadFile>, f: UploadFile)
    ensures TotalSize(Without(files, f)) <= TotalSize(files)
  {
    if files != [] {
      var init := files[..|files| - 1];
      var last := files[|files| - 1];
      WithoutSize(init, f);
      if last != f {
        TotalSizeConcat(Without(init, f), [last]);
        assert [last][..0] == [];
      }
    }
  }

  /** Removing a file never breaks either limit. */
  lemma WithoutKeepsLimits(files: seq<UploadFile>, f: UploadFile, limits: UploadLimits)
    requires WithinLimits(files, limits)
    ensures WithinLimits(Without(files, f), limits)
  {
    WithoutSize(files, f);
  }

  /** A user action on the list. */
  datatype Action = Drop(accepted: seq<UploadFile>) | Remove(file: UploadFile)

  function Apply(files: seq<UploadFile>, action: Action, limits: UploadLimits): seq<UploadFile> {
    match action
    case Drop(accepted) => AfterDrop(files, accepted, limits)
    case Remove(f) => Without(files, f)
  }

  function Replay(files: seq<UploadFile>, actions: seq<Action>, limits: UploadLimits): seq<UploadFile>
    decreases |actions|
  {
    if actions == [] then files else Replay(Apply(files, actions[0], limits), actions[1..], limits)
  }

  /** A list that starts within the limits stays within them under any drops and removals. */
  lemma {:induction false} ReplayKeepsLimits(files: seq<UploadFile>, actions: seq<Action>, limits: UploadLimits)
    requires WithinLimits(files, limits)
    ensures WithinLimits(Replay(files, actions, limits), limits)
    decreases |actions|
  {
    if actions != [] {
      if actions[0].Remove? {
        WithoutKeepsLimits(files, actions[0].file, limits);
      }
      ReplayKeepsLimits(Apply(files, actions[0], limits), actions[1..], limits);
    }
  }

  /** One `formData.append('files', file)` entry. */
  datatype FormField = FormField(name: string, file: UploadFile)

  /** The multipart body: every file, in list order, under the field name `files`. */
  function FormFields(files: seq<UploadFile>): (form: seq<FormField>)
    ensures |form| == |files|
    ensures forall i :: 0 <= i < |form| ==> form[i].name == "files" && form[i].file == files[i]
  {
    seq(|files|, i requires 0 <= i < |files| => FormField("files", files[i]))
  }

  datatype SubmitRequest = SubmitRequest(path: string, form: seq<FormField>)

  /** The server's answer to the submit request. */
  datatype SubmitReply = Created(submissionId: string) | Rejected(message: Option<string>)

  datatype Toast = Toast(destructive: bool, title: string, description: string)

  const DefaultFailure: string := "An unexpected error occurred."

  /** The toast after the request settles: the server's message when it is non-empty, else a fixed text. */
  function SettleToast(reply: SubmitReply): (t: Toast)
    ensures t.destructive <==> reply.Rejected?
    ensures reply.Rejected? && Truthy(reply.message) ==> t.description == reply.message.value
    ensures reply.Rejected? && !Truthy(reply.message) ==> t.description == DefaultFailure
    ensures reply.Created? ==> |t.description| >= 22 && t.description[22..] == reply.submissionId
  {
    match reply
    case Created(id) => Toast(false, "Submission successful!", "Your submission ID is " + id)
    case Rejected(message) =>
      Toast(true, "Submission failed", if Truthy(message) then message.value else DefaultFailure)
  }

  /** Only an accepted submission navigates, to that submission's page. */
  function SettleRedirect(reply: SubmitReply): (r: Option<string>)
    ensures r.Some? <==> reply.Created?
    ensures r.Some? ==> |r.value| >= 13 && r.value[..13] == "/submissions/" && r.value[13..] == reply.submissionId
  {
    match reply
    case Created(id) => Some("/submissions/" + id)
    case Rejected(_) => None
  }

  class SubmissionForm {
    const problemId: string
    const limits: UploadLimits
    var files: seq<UploadFile>
    var isSubmitting: bool

    constructor(problemId: string, limits: UploadLimits)
      ensures this.problemId == problemId && this.limits == limits
      ensures files == [] && !isSubmitting
    {
      this.problemId := problemId;
      this.limits := limits;
      files := [];
      isSubmitting := false;
    }

    /** The submit button is disabled while submitting and while the list is empty. */
    predicate SubmitDisabled()
      reads this
    {
      isSubmitting || |files| == 0
    }

    method OnDrop(accepted: seq<UploadFile>) returns (outcome: DropOutcome)
      modifies this`files
      ensures outcome == DropCheck(old(files), accepted, limits)
      ensures files == AfterDrop(old(files), accepted, limits)
    {
      if |files| + |accepted| > limits.maxNum {
        return TooManyFiles;
      }
      var all := files + accepted;
      var totalSize := 0;
      for i := 0 to |all|
        invariant totalSize == TotalSize(all[..i])
      {
        assert all[..i + 1][..i] == all[..i];
        totalSize := totalSize + all[i].size;
      }
      assert all[..|all|] == all;
      if totalSize > limits.maxSizeMb * BytesPerMb {
        return TooLarge;
      }
      files := files + accepted;
      return Accepted;
    }

    method RemoveFile(f: UploadFile)
      modifies this`files
      ensures files == Without(old(files), f)
    {
      var kept := [];
      for i := 0 to |files|
        invariant kept == Without(files[..i], f)
      {
        assert files[..i + 1][..i] == files[..i];
        if files[i] != f {
          kept := kept + [files[i]];
        }
      }
      assert files[..|files|] == files;
      files := kept;
    }

    /**
     * The synchronous part of `handleSubmit`: with an empty list nothing is
     * sent; otherwise the form is marked as submitting and the request
     * carries every file in order.
     */
    method BeginSubmit() returns (request: Option<SubmitRequest>)
      modifies this`isSubmitting
      ensures request.None? <==> |files| == 0
      ensures request.None? ==> isSubmitting == old(isSubmitting)
      ensures request.Some? ==> isSubmitting && SubmitDisabled()
      ensures request.Some? ==> request.value == SubmitRequest("/problems/" + problemId + "/submit", FormFields(files))
    {
      if |files| == 0 {
        return None;
      }
      isSubmitting := true;
      var form := [];
      for i := 0 to |files|
        invariant form == FormFields(files[..i])
      {
        form := form + [FormField("files", files[i])];
      }
      assert files[..|files|] == files;
      return Some(SubmitRequest("/problems/" + problemId + "/submit", form));
    }

    /** The request settled: a toast, a redirect on success, and the form is no longer submitting. */
    method SubmitSettled(reply: SubmitReply) returns (toast: Toast, redirect: Option<string>)
      modifies this`isSubmitting
      ensures !isSubmitting
      ensures toast == SettleToast(reply) && redirect == SettleRedirect(reply)
    {
      toast := SettleToast(reply);
      redirect := SettleRedirect(reply);
      isSubmitting := false;
    }
  }
}
