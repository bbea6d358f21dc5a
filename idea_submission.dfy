// The idea submission page (src/pages/IdeaSubmission.tsx): the co-applicant rows, the local
// attachment list, the submit guard and the loop that turns the submission into form-data.
module IdeaSubmission {
  import opened Wrappers
  import Seqs

  /** One co-applicant row of the form. */
  datatype CoApplicantRow = CoApplicantRow(name: string, email: string)

  /** A file picked in the browser; only its name matters here. */
  datatype LocalFile = LocalFile(name: string)

  const Blank: CoApplicantRow := CoApplicantRow("", "")
  const MaxRows: nat := 5
  const LimitMessage: string := "You can add up to 5 co-applicants only."

  /** The form's default value: one blank row. */
  function InitialRows(): (rows: seq<CoApplicantRow>)
    ensures rows == [Blank]
  {
    [Blank]
  }

  /** The rows and the error message after a click on "Add Co-Applicant". */
  datatype AddOutcome = AddOutcome(rows: seq<CoApplicantRow>, error: string)

  /** `handleAddCoApplicant`: with five rows or more, refuse with the limit message; else clear it and add a blank row. */
  function AddCoApplicantRow(rows: seq<CoApplicantRow>): (r: AddOutcome)
    ensures |rows| >= MaxRows ==> r.rows == rows && r.error == LimitMessage
    ensures |rows| < MaxRows ==> r.rows == rows + [Blank] && r.error == ""
  {
    if |rows| >= MaxRows then AddOutcome(rows, LimitMessage) else AddOutcome(rows + [Blank], "")
  }

  /** `remove(index)` of the row's delete button: that row goes, the others keep their order. */
  function RemoveRow(rows: seq<CoApplicantRow>, index: nat): (r: seq<CoApplicantRow>)
    requires index < |rows|
    ensures |r| == |rows| - 1
    ensures r == rows[..index] + rows[index + 1..]
  {
    Seqs.RemoveAt(rows, index)
  }

  /** No sequence of adds and removes takes a form with at most five rows past five. */
  lemma RowCapKept(rows: seq<CoApplicantRow>, index: nat)
    requires |rows| <= MaxRows
    ensures |AddCoApplicantRow(rows).rows| <= MaxRows
    ensures index < |rows| ==> |RemoveRow(rows, index)| < MaxRows
  {
  }

  /** The add button shows the limit message exactly when it adds nothing. */
  lemma AddRefusedIffError(rows: seq<CoApplicantRow>)
    ensures AddCoApplicantRow(rows).error != "" <==> AddCoApplicantRow(rows).rows == rows
  {
  }

  /** `handleFileChange`: the picked files, if any, after the files already listed. */
  function HandleFileChange(prev: seq<LocalFile>, picked: Option<seq<LocalFile>>): (r: seq<LocalFile>)
    ensures |r| >= |prev| && r[..|prev|] == prev
    ensures picked.Some? ==> r[|prev|..] == picked.value
    ensures picked.None? ==> r == prev
  {
    prev + picked.GetOr([])
  }

  /** `removeAttachment(index)`: drops the file at that position; any other index changes nothing. */
  function RemoveAttachment(prev: seq<LocalFile>, index: int): (r: seq<LocalFile>)
    ensures 0 <= index < |prev| ==> |r| == |prev| - 1 && r == prev[..index] + prev[index + 1..]
    ensures 0 <= index < |prev| ==> multiset(r) + multiset{prev[index]} == multiset(prev)
    ensures !(0 <= index < |prev|) ==> r == prev
  {
    assert 0 <= index < |prev| ==> prev == prev[..index] + [prev[index]] + prev[index + 1..];
    Seqs.RemoveAt(prev, index)
  }

  /** Removing the file just picked, from its position, gives back the list before the pick. */
  lemma RemoveUndoesPick(prev: seq<LocalFile>, f: LocalFile)
    ensures RemoveAttachment(HandleFileChange(prev, Some([f])), |prev|) == prev
  {
  }

  /** The form fields react-hook-form hands to `onSubmit`. */
  datatype FormValues = FormValues(
    title: string, description: string, expectedImpact: string, lineOfBusiness: string,
    coApplicants: seq<CoApplicantRow>)

  /** `submissionData`: the form fields, the attachment list and the submitter (`undefined` when absent). */
  datatype Submission = Submission(
    title: string, description: string, expectedImpact: string, lineOfBusiness: string,
    coApplicants: seq<CoApplicantRow>, attachments: seq<LocalFile>, submittedBy: Option<string>)

  /** The nested `user.user` object of the stored session; its `id` may be missing. */
  datatype SessionUser = SessionUser(id: Option<string>)

  /** The stored session: the login response, whose top-level `id` and nested `user` may each be missing. */
  datatype Session = Session(id: Option<string>, user: Option<SessionUser>)

  /** What the submit handler does: nothing, throw reading `.id` of a missing `user.user`, or submit. */
  datatype SubmitOutcome = NotSubmitted | TypeError | Submitted(data: Submission)

  /** JavaScript truthiness of an optional string. */
  predicate Truthy(s: Option<string>)
  {
    s.Some? && s.value != ""
  }

  /**
   * `onSubmit`: no session or no (or an empty) `user.user.id` submits nothing; otherwise the
   * submission takes the form fields, the listed files and the session's top-level `id`.
   */
  function OnSubmit(session: Option<Session>, form: FormValues, attachments: seq<LocalFile>): (r: SubmitOutcome)
    ensures session.None? ==> r == NotSubmitted
    ensures session.Some? && session.value.user.None? ==> r == TypeError
    ensures session.Some? && session.value.user.Some? && !Truthy(session.value.user.value.id) ==> r == NotSubmitted
    ensures r.Submitted? <==> session.Some? && session.value.user.Some? && Truthy(session.value.user.value.id)
    ensures r.Submitted? ==>
      && r.data.attachments == attachments
      && r.data.submittedBy == session.value.id
      && r.data.coApplicants == form.coApplicants
      && r.data.title == form.title && r.data.description == form.description
      && r.data.expectedImpact == form.expectedImpact && r.data.lineOfBusiness == form.lineOfBusiness
  {
    match session
    case None => NotSubmitted
    case Some(s) =>
      match s.user
      case None => TypeError
      case Some(u) =>
        if !Truthy(u.id) then NotSubmitted
        else Submitted(Submission(form.title, form.description, form.expectedImpact, form.lineOfBusiness,
                                  form.coApplicants, attachments, s.id))
  }

  /**
   * A session shaped like the API server's login response (`{ token, user }`, no top-level `id`)
   * passes the guard but submits no submitter: `submittedBy` is `undefined`.
   */
  lemma ServerSessionSubmitsNoSubmitter(userId: string, form: FormValues, attachments: seq<LocalFile>)
    requires userId != ""
    ensures OnSubmit(Some(Session(None, Some(SessionUser(Some(userId))))), form, attachments).Submitted?
    ensures OnSubmit(Some(Session(None, Some(SessionUser(Some(userId))))), form, attachments).data.submittedBy.None?
  {
  }

  /** The keys of `submissionData`, in `Object.entries` order. */
  datatype FieldKey =
    | TitleKey | DescriptionKey | ExpectedImpactKey | LineOfBusinessKey
    | CoApplicantsKey | AttachmentsKey | SubmittedByKey

  function KeyName(k: FieldKey): string
  {
    match k
    case TitleKey => "title"
    case DescriptionKey => "description"
    case ExpectedImpactKey => "expectedImpact"
    case LineOfBusinessKey => "lineOfBusiness"
    case CoApplicantsKey => "coApplicants"
    case AttachmentsKey => "attachments"
    case SubmittedByKey => "submittedBy"
  }

  function KeyOfName(name: string): Option<FieldKey>
  {
    if name == "title" then Some(TitleKey)
    else if name == "description" then Some(DescriptionKey)
    else if name == "expectedImpact" then Some(ExpectedImpactKey)
    else if name == "lineOfBusiness" then Some(LineOfBusinessKey)
    else if name == "coApplicants" then Some(CoApplicantsKey)
    else if name == "attachments" then Some(AttachmentsKey)
    else if name == "submittedBy" then Some(SubmittedByKey)
    else None
  }

  /** Key names and their lookup are inverse to each other, in both directions. */
  lemma KeyNames(k: FieldKey, name: string)
    ensures KeyOfName(KeyName(k)) == Some(k)
    ensures KeyOfName(name) == Some(k) ==> KeyName(k) == name
  {
  }

  /**
   * The key order of `{ ...data, attachments, submittedBy }`: the form's own keys, then the two
   * added ones.
   */
  function EntryOrder(formKeys: seq<FieldKey>): (keys: seq<FieldKey>)
    requires AttachmentsKey !in formKeys && SubmittedByKey !in formKeys
    ensures |keys| == |formKeys| + 2 && keys[..|formKeys|] == formKeys
    ensures keys[|formKeys|..] == [AttachmentsKey, SubmittedByKey]
  {
    formKeys + [AttachmentsKey, SubmittedByKey]
  }

  datatype FormValue = Str(text: string) | Blob(file: LocalFile)
  datatype FormEntry = FormEntry(name: string, value: FormValue)

  /** The string a non-file key contributes; `json` is `JSON.stringify` of the co-applicant rows. */
  function FieldText(sub: Submission, k: FieldKey, json: seq<CoApplicantRow> -> string): string
    requires k != AttachmentsKey
  {
    match k
    case TitleKey => sub.title
    case DescriptionKey => sub.description
    case ExpectedImpactKey => sub.expectedImpact
    case LineOfBusinessKey => sub.lineOfBusiness
    case CoApplicantsKey => json(sub.coApplicants)
    case SubmittedByKey => sub.submittedBy.GetOr("undefined")
  }

  /** One `attachments` entry per file, in order. */
  function AttachmentEntries(files: seq<LocalFile>): (es: seq<FormEntry>)
    ensures |es| == |files|
    ensures forall i :: 0 <= i < |files| ==> es[i] == FormEntry("attachments", Blob(files[i]))
  {
    seq(|files|, i requires 0 <= i < |files| => FormEntry("attachments", Blob(files[i])))
  }

  /** The entries one key contributes. */
  function EntriesFor(sub: Submission, k: FieldKey, json: seq<CoApplicantRow> -> string): seq<FormEntry>
  {
    if k == AttachmentsKey then AttachmentEntries(sub.attachments)
    else [FormEntry(KeyName(k), Str(FieldText(sub, k, json)))]
  }

  /** The form-data of a submission whose keys come in the order `keys`. */
  function Serialized(sub: Submission, keys: seq<FieldKey>, json: seq<CoApplicantRow> -> string): seq<FormEntry>
  {
    if |keys| == 0 then []
    else Serialized(sub, keys[..|keys| - 1], json) + EntriesFor(sub, keys[|keys| - 1], json)
  }

  /**
   * The `Object.entries(data).forEach` loop: `coApplicants` becomes one JSON entry, `attachments`
   * one entry per file, any other key one string entry.
   */
  method Serialize(sub: Submission, keys: seq<FieldKey>, json: seq<CoApplicantRow> -> string)
    returns (form: seq<FormEntry>)
    ensures form == Serialized(sub, keys, json)
  {
    form := [];
    var i := 0;
    while i < |keys|
      invariant 0 <= i <= |keys|
      invariant form == Serialized(sub, keys[..i], json)
    {
      var k := keys[i];
      if k == CoApplicantsKey {
        form := form + [FormEntry("coApplicants", Str(json(sub.coApplicants)))];
      } else if k == AttachmentsKey {
        var j := 0;
        while j < |sub.attachments|
          invariant 0 <= j <= |sub.attachments|
          invariant form == Serialized(sub, keys[..i], json) + AttachmentEntries(sub.attachments[..j])
        {
          form := form + [FormEntry("attachments", Blob(sub.attachments[j]))];
          j := j + 1;
          assert AttachmentEntries(sub.attachments[..j])
              == AttachmentEntries(sub.attachments[..j - 1]) + [FormEntry("attachments", Blob(sub.attachments[j - 1]))];
        }
        assert sub.attachments[..j] == sub.attachments;
      } else {
        form := form + [FormEntry(KeyName(k), Str(FieldText(sub, k, json)))];
      }
      assert keys[..i + 1][..i] == keys[..i];
      i := i + 1;
    }
    assert keys[..|keys|] == keys;
  }

  /** How many entries carry the name `name`. */
  function CountNamed(form: seq<FormEntry>, name: string): nat
  {
    if |form| == 0 then 0
    else CountNamed(form[..|form| - 1], name) + (if form[|form| - 1].name == name then 1 else 0)
  }

  /** The files of the `attachments` entries, in order. */
  function AttachedFiles(form: seq<FormEntry>): seq<LocalFile>
  {
    if |form| == 0 then []
    else
      var e := form[|form| - 1];
      AttachedFiles(form[..|form| - 1]) + (if e.name == "attachments" && e.value.Blob? then [e.value.file] else [])
  }

  lemma {:induction false} CountNamedAppend(a: seq<FormEntry>, b: seq<FormEntry>, name: string)
    ensures CountNamed(a + b, name) == CountNamed(a, name) + CountNamed(b, name)
    decreases |b|
  {
    if |b| > 0 {
      assert (a + b)[..|a + b| - 1] == a + b[..|b| - 1];
      CountNamedAppend(a, b[..|b| - 1], name);
    } else {
      assert a + b == a;
    }
  }

  lemma {:induction false} AttachedFilesAppend(a: seq<FormEntry>, b: seq<FormEntry>)
    ensures AttachedFiles(a + b) == AttachedFiles(a) + AttachedFiles(b)
    decreases |b|
  {
    if |b| > 0 {
      assert (a + b)[..|a + b| - 1] == a + b[..|b| - 1];
      AttachedFilesAppend(a, b[..|b| - 1]);
    } else {
      assert a + b == a;
    }
  }

  lemma {:induction false} AttachmentEntriesFiles(files: seq<LocalFile>)
    ensures AttachedFiles(AttachmentEntries(files)) == files
    ensures forall name :: name != "attachments" ==> CountNamed(AttachmentEntries(files), name) == 0
    decreases |files|
  {
    if |files| > 0 {
      var init := files[..|files| - 1];
      assert AttachmentEntries(files)[..|files| - 1] == AttachmentEntries(init);
      AttachmentEntriesFiles(init);
    }
  }

  /**
   * Every key other than `attachments` contributes exactly one entry under its name per
   * occurrence in the order, whatever the other keys are.
   */
  lemma {:induction false} SerializedCount(sub: Submission, keys: seq<FieldKey>, json: seq<CoApplicantRow> -> string, k: FieldKey)
    requires k != AttachmentsKey
    ensures CountNamed(Serialized(sub, keys, json), KeyName(k)) == multiset(keys)[k]
    decreases |keys|
  {
    if |keys| > 0 {
      var init := keys[..|keys| - 1];
      var last := keys[|keys| - 1];
      assert keys == init + [last];
      SerializedCount(sub, init, json, k);
      CountNamedAppend(Serialized(sub, init, json), EntriesFor(sub, last, json), KeyName(k));
      EntriesForCount(sub, last, json, k);
      assert multiset(keys)[k] == multiset(init)[k] + multiset([last])[k];
    }
  }

  /** One key's entries hold one entry under the name of `k` when it is `k`, and none otherwise. */
  lemma EntriesForCount(sub: Submission, key: FieldKey, json: seq<CoApplicantRow> -> string, k: FieldKey)
    requires k != AttachmentsKey
    ensures CountNamed(EntriesFor(sub, key, json), KeyName(k)) == if key == k then 1 else 0
  {
    if key == AttachmentsKey {
      AttachmentEntriesFiles(sub.attachments);
    } else {
      KeyNames(k, KeyName(key));
      KeyNames(key, KeyName(k));
      var es := EntriesFor(sub, key, json);
      assert es[..0] == [];
    }
  }

  /** Every entry of `form` named `name` holds the value `v`. */
  predicate NamedEntriesHold(form: seq<FormEntry>, name: string, v: FormValue)
  {
    forall i :: 0 <= i < |form| && form[i].name == name ==> form[i].value == v
  }

  /**
   * Every entry under the name of a key other than `attachments` holds that key's text: the
   * field's value, the JSON of the co-applicant rows, or the submitter (`"undefined"` when absent).
   */
  lemma {:induction false} SerializedValues(sub: Submission, keys: seq<FieldKey>, json: seq<CoApplicantRow> -> string, k: FieldKey)
    requires k != AttachmentsKey
    ensures NamedEntriesHold(Serialized(sub, keys, json), KeyName(k), Str(FieldText(sub, k, json)))
    decreases |keys|
  {
    if |keys| > 0 {
      var init := keys[..|keys| - 1];
      var a: seq<FormEntry> := Serialized(sub, init, json);
      var b: seq<FormEntry> := EntriesFor(sub, keys[|keys| - 1], json);
      SerializedValues(sub, init, json, k);
      EntriesForValues(sub, keys[|keys| - 1], json, k);
      forall i | 0 <= i < |a + b| && (a + b)[i].name == KeyName(k)
        ensures (a + b)[i].value == Str(FieldText(sub, k, json))
      {
        if i < |a| {
          assert (a + b)[i] == a[i];
        } else {
          assert (a + b)[i] == b[i - |a|];
        }
      }
    }
  }

  /** One key's entries under the name of `k` hold the text of `k`. */
  lemma EntriesForValues(sub: Submission, key: FieldKey, json: seq<CoApplicantRow> -> string, k: FieldKey)
    requires k != AttachmentsKey
    ensures NamedEntriesHold(EntriesFor(sub, key, json), KeyName(k), Str(FieldText(sub, k, json)))
  {
    KeyNames(k, KeyName(key));
    KeyNames(AttachmentsKey, KeyName(k));
  }

  /**
   * With each key at most once in the order, the `attachments` entries carry exactly the
   * submission's files, in order, when the key is there, and none otherwise.
   */
  lemma {:induction false} SerializedFiles(sub: Submission, keys: seq<FieldKey>, json: seq<CoApplicantRow> -> string)
    requires Seqs.NoDuplicates(keys)
    ensures AttachmentsKey in keys ==> AttachedFiles(Serialized(sub, keys, json)) == sub.attachments
    ensures AttachmentsKey !in keys ==> AttachedFiles(Serialized(sub, keys, json)) == []
    decreases |keys|
  {
    if |keys| > 0 {
      var init := keys[..|keys| - 1];
      var last := keys[|keys| - 1];
      assert keys == init + [last];
      SerializedFiles(sub, init, json);
      AttachedFilesAppend(Serialized(sub, init, json), EntriesFor(sub, last, json));
      if last == AttachmentsKey {
        AttachmentEntriesFiles(sub.attachments);
        assert AttachmentsKey !in init by {
          forall i | 0 <= i < |init| ensures init[i] != AttachmentsKey {
            assert init[i] == keys[i];
          }
        }
      } else {
        assert AttachedFiles(EntriesFor(sub, last, json)) == [];
        assert AttachmentsKey in keys <==> AttachmentsKey in init;
      }
    }
  }

  /**
   * What the page actually sends for a submission built from the form's keys: one
   * `coApplicants` entry holding the JSON of the rows, one `submittedBy` entry holding the
   * submitter (`"undefined"` when absent), and the listed files as the `attachments` entries in
   * order.
   */
  lemma SubmittedForm(sub: Submission, formKeys: seq<FieldKey>, json: seq<CoApplicantRow> -> string)
    requires Seqs.NoDuplicates(formKeys) && CoApplicantsKey in formKeys
    requires AttachmentsKey !in formKeys && SubmittedByKey !in formKeys
    ensures CountNamed(Serialized(sub, EntryOrder(formKeys), json), "coApplicants") == 1
    ensures CountNamed(Serialized(sub, EntryOrder(formKeys), json), "submittedBy") == 1
    ensures NamedEntriesHold(Serialized(sub, EntryOrder(formKeys), json), "coApplicants", Str(json(sub.coApplicants)))
    ensures NamedEntriesHold(Serialized(sub, EntryOrder(formKeys), json), "submittedBy", Str(sub.submittedBy.GetOr("undefined")))
    ensures AttachedFiles(Serialized(sub, EntryOrder(formKeys), json)) == sub.attachments
  {
    var keys := EntryOrder(formKeys);
    EntryOrderNoDuplicates(formKeys);
    SerializedCount(sub, keys, json, CoApplicantsKey);
    SerializedCount(sub, keys, json, SubmittedByKey);
    Seqs.NoDuplicatesCount(keys, CoApplicantsKey);
    Seqs.NoDuplicatesCount(keys, SubmittedByKey);
    SerializedFiles(sub, keys, json);
    SerializedValues(sub, keys, json, CoApplicantsKey);
    SerializedValues(sub, keys, json, SubmittedByKey);
  }

  /** Appending the two added keys to form keys without them keeps every key distinct. */
  lemma EntryOrderNoDuplicates(formKeys: seq<FieldKey>)
    requires Seqs.NoDuplicates(formKeys)
    requires AttachmentsKey !in formKeys && SubmittedByKey !in formKeys
    ensures Seqs.NoDuplicates(EntryOrder(formKeys))
  {
  }
}
