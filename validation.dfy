/** `validateTask` (lib/taskflow.tsx:238-254): field-level checks on the data a
    task form submits, collected into a record of one message per failing property. */
module Validation {
  import opened Seqs

  /** `Partial<CreateTaskInput>`: every field may be absent. */
  datatype TaskDraft = TaskDraft(
    title: Option<string>,
    description: Option<string>,
    assignedUserId: Option<string>,
    projectId: Option<string>,
    status: Option<string>,
    priority: Option<string>,
    dueDate: Option<string>)

  /** The error record: one optional message per checked property. */
  datatype FieldErrors = FieldErrors(
    title: Option<string>,
    description: Option<string>,
    assignedUserId: Option<string>,
    projectId: Option<string>,
    status: Option<string>,
    priority: Option<string>)

  /** The empty record `{}`. */
  const NoErrors := FieldErrors(None, None, None, None, None, None)

  /** `valid` is true when the error record has no keys. */
  datatype ValidationResult = ValidationResult(valid: bool, errors: FieldErrors)

  const MaxTitleLength: nat := 200
  const MaxDescriptionLength: nat := 2000

  /** The messages of the error record. */
  const TitleRequired: string := "Title is required"
  const TitleTooLongMessage: string := "Title must be less than 200 characters"
  const AssignedUserRequired: string := "Assigned user is required"
  const ProjectRequired: string := "Project is required"
  const StatusRequired: string := "Status is required"
  const PriorityRequired: string := "Priority is required"
  const DescriptionTooLongMessage: string := "Description must be less than 2000 characters"

  /** The characters `String.prototype.trim` removes: ECMAScript WhiteSpace
      (tab, vertical tab, form feed, space, no-break space, byte order mark and
      the space separators of Unicode category Zs) and LineTerminator. */
  predicate IsWhitespace(c: char) {
    || c == '\t' || c == '\U{000B}' || c == '\U{000C}' || c == ' ' || c == '\U{00A0}' || c == '\U{FEFF}'
    || c == '\U{1680}' || ('\U{2000}' <= c <= '\U{200A}') || c == '\U{202F}' || c == '\U{205F}' || c == '\U{3000}'
    || c == '\n' || c == '\r' || c == '\U{2028}' || c == '\U{2029}'
  }

  /** Drops the leading whitespace: what is left is a suffix of `s` that does
      not start with whitespace, and everything dropped was whitespace. */
  function TrimStart(s: string): (r: string)
    ensures |r| <= |s| && r == s[|s| - |r|..]
    ensures forall i :: 0 <= i < |s| - |r| ==> IsWhitespace(s[i])
    ensures r == [] || !IsWhitespace(r[0])
  {
    if s != [] && IsWhitespace(s[0]) then TrimStart(s[1..]) else s
  }

  /** Drops the trailing whitespace: what is left is a prefix of `s` that does
      not end with whitespace, and everything dropped was whitespace. */
  function TrimEnd(s: string): (r: string)
    ensures |r| <= |s| && r == s[..|r|]
    ensures forall i :: |r| <= i < |s| ==> IsWhitespace(s[i])
    ensures r == [] || !IsWhitespace(r[|r| - 1])
  {
    if s != [] && IsWhitespace(s[|s| - 1]) then TrimEnd(s[..|s| - 1]) else s
  }

  /** `String.prototype.trim`: the block of `s` left once the leading and the
      trailing whitespace are dropped; it neither starts nor ends with whitespace. */
  function Trim(s: string): (r: string)
    ensures |s| - |TrimStart(s)| + |r| <= |s|
    ensures r == s[|s| - |TrimStart(s)|..|s| - |TrimStart(s)| + |r|]
    ensures forall i :: 0 <= i < |s| - |TrimStart(s)| ==> IsWhitespace(s[i])
    ensures forall i :: |s| - |TrimStart(s)| + |r| <= i < |s| ==> IsWhitespace(s[i])
    ensures r == [] || (!IsWhitespace(r[0]) && !IsWhitespace(r[|r| - 1]))
  {
    var t := TrimStart(s);
    var r := TrimEnd(t);
    assert r != [] ==> r[0] == t[0];
    r
  }

  /** A string trims to nothing exactly when it is all whitespace. */
  lemma TrimEmptyIffBlank(s: string)
    ensures Trim(s) == [] <==> forall i :: 0 <= i < |s| ==> IsWhitespace(s[i])
  {
    var r := TrimStart(s);
    assert r != [] ==> r[0] == s[|s| - |r|];
  }

  /** `string.length`: JavaScript counts UTF-16 code units, so a character
      outside the Basic Multilingual Plane counts twice. */
  function Utf16Length(s: string): (n: nat)
    ensures |s| <= n <= 2 * |s|
  {
    if s == [] then 0 else (if s[0] as int >= 0x1_0000 then 2 else 1) + Utf16Length(s[1..])
  }

  /** On text without astral characters the JavaScript length is the character count. */
  lemma {:induction false} Utf16LengthOfBmp(s: string)
    requires forall i :: 0 <= i < |s| ==> s[i] as int < 0x1_0000
    ensures Utf16Length(s) == |s|
  {
    if s != [] {
      Utf16LengthOfBmp(s[1..]);
    }
  }

  /** `!input.title?.trim()`: the title is absent or only whitespace. */
  predicate TitleMissing(title: Option<string>) {
    title.None? || |Trim(title.value)| == 0
  }

  /** The title check: a missing title gets "required"; otherwise the length
      limit applies to the untrimmed title. */
  predicate TitleTooLong(title: Option<string>) {
    !TitleMissing(title) && Utf16Length(title.value) > MaxTitleLength
  }

  predicate DescriptionTooLong(description: Option<string>) {
    description.Some? && Utf16Length(description.value) > MaxDescriptionLength
  }

  /** `validateTask`: fills the error record one check after another. */
  method ValidateTask(input: TaskDraft) returns (result: ValidationResult)
    ensures result.valid <==> result.errors == NoErrors
    ensures result.errors.title.Some? <==> TitleMissing(input.title) || TitleTooLong(input.title)
    ensures TitleMissing(input.title) ==> result.errors.title == Some(TitleRequired)
    ensures TitleTooLong(input.title) ==> result.errors.title == Some(TitleTooLongMessage)
    ensures result.errors.assignedUserId == if !IsTruthy(input.assignedUserId) then Some(AssignedUserRequired) else None
    ensures result.errors.projectId == if !IsTruthy(input.projectId) then Some(ProjectRequired) else None
    ensures result.errors.status == if !IsTruthy(input.status) then Some(StatusRequired) else None
    ensures result.errors.priority == if !IsTruthy(input.priority) then Some(PriorityRequired) else None
    ensures result.errors.description == if DescriptionTooLong(input.description) then Some(DescriptionTooLongMessage) else None
  {
    var errors := NoErrors;

    if input.title.None? || |Trim(input.title.value)| == 0 {
      errors := errors.(title := Some(TitleRequired));
    } else if Utf16Length(input.title.value) > MaxTitleLength {
      errors := errors.(title := Some(TitleTooLongMessage));
    }

    if !IsTruthy(input.assignedUserId) { errors := errors.(assignedUserId := Some(AssignedUserRequired)); }
    if !IsTruthy(input.projectId) { errors := errors.(projectId := Some(ProjectRequired)); }
    if !IsTruthy(input.status) { errors := errors.(status := Some(StatusRequired)); }
    if !IsTruthy(input.priority) { errors := errors.(priority := Some(PriorityRequired)); }

    if IsTruthy(input.description) && Utf16Length(input.description.value) > MaxDescriptionLength {
      errors := errors.(description := Some(DescriptionTooLongMessage));
    }

    result := ValidationResult(errors == NoErrors, errors);
  }

  /** An empty draft is rejected with one error for each required field and none for the description. */
  method ValidateEmptyDraft() returns (result: ValidationResult)
    ensures !result.valid
    ensures result.errors == FieldErrors(Some(TitleRequired), None, Some(AssignedUserRequired),
                                         Some(ProjectRequired), Some(StatusRequired), Some(PriorityRequired))
  {
    result := ValidateTask(TaskDraft(None, None, None, None, None, None, None));
  }

  /** A complete draft whose title is 201 characters long fails on the title length alone. */
  method ValidateOverlongTitle() returns (result: ValidationResult)
    ensures !result.valid
    ensures result.errors == NoErrors.(title := Some(TitleTooLongMessage))
  {
    var title := seq(201, _ => 'x');
    Utf16LengthOfBmp(title);
    TrimEmptyIffBlank(title);
    assert !IsWhitespace(title[0]);
    result := ValidateTask(TaskDraft(Some(title), None, Some("u"), Some("p"), Some("todo"), Some("low"), None));
  }
}
