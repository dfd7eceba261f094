/**
 * The rules inside the program leader's portal: the search box over each listing, the
 * checks a stream, module or assignment form must pass before a request is sent, the
 * grouping of modules by stream, and the banding of average ratings.
 */
module ProgramLeader {
  import opened Optional
  import opened Text
  import Seqs

  // ----- Rows fetched from the server (only the fields these rules read) -----

  datatype Report = Report(
    facultyName: Option<string>, lecturerName: Option<string>, courseName: Option<string>,
    topic: Option<string>, feedback: Option<string>)

  datatype PrlRating = PrlRating(
    prlName: Option<string>, prlSurname: Option<string>, streamName: Option<string>,
    averageRating: Option<real>)

  datatype LecturerRating = LecturerRating(
    lecturerName: Option<string>, lecturerSurname: Option<string>, streamName: Option<string>,
    averageRating: Option<real>)

  datatype Lecturer = Lecturer(
    id: int, name: Option<string>, surname: Option<string>, username: Option<string>,
    streamName: Option<string>, streamId: Option<int>)

  datatype Stream = Stream(id: int, name: Option<string>)

  datatype Module = Module(
    id: int, name: Option<string>, code: Option<string>, streamName: Option<string>,
    streamId: Option<int>)

  // ----- Search -----

  /** `field?.toLowerCase().includes(search)`: a missing field never matches. */
  predicate FieldMatches(field: Option<string>, search: string)
  {
    field.Some? && Includes(LowerStr(field.value), search)
  }

  /** The field is present and, ignoring case, contains `term`. */
  ghost predicate Mentions(field: Option<string>, term: string)
  {
    field.Some? && exists i :: OccursAt(LowerStr(field.value), LowerStr(term), i)
  }

  // What each search is meant to find: every row for an empty term, otherwise a row one of
  // whose searched fields mentions the term.

  ghost predicate ReportMentions(r: Report, term: string)
  {
    term == "" || Mentions(r.facultyName, term)
    || Mentions(r.lecturerName, term)
    || Mentions(r.courseName, term)
    || Mentions(r.topic, term)
    || Mentions(r.feedback, term)
  }

  ghost predicate PrlRatingMentions(p: PrlRating, term: string)
  {
    term == "" || Mentions(p.prlName, term)
    || Mentions(p.prlSurname, term)
    || Mentions(p.streamName, term)
  }

  ghost predicate LecturerRatingMentions(l: LecturerRating, term: string)
  {
    term == "" || Mentions(l.lecturerName, term)
    || Mentions(l.lecturerSurname, term)
    || Mentions(l.streamName, term)
  }

  ghost predicate LecturerMentions(l: Lecturer, term: string)
  {
    term == "" || Mentions(l.name, term)
    || Mentions(l.surname, term)
    || Mentions(l.username, term)
    || Mentions(l.streamName, term)
  }

  ghost predicate StreamMentions(s: Stream, term: string)
  {
    term == "" || Mentions(s.name, term)
  }

  ghost predicate ModuleMentions(m: Module, term: string)
  {
    term == "" || Mentions(m.name, term)
    || Mentions(m.code, term)
    || Mentions(m.streamName, term)
  }

  // The tests the listings apply to each row: an empty term keeps every row, otherwise the
  // lower-cased term must occur in one of the lower-cased fields.

  predicate ReportMatches(r: Report, term: string)
  {
    if term == "" then true
    else
      var search := LowerStr(term);
      FieldMatches(r.facultyName, search) || FieldMatches(r.lecturerName, search)
      || FieldMatches(r.courseName, search) || FieldMatches(r.topic, search)
      || FieldMatches(r.feedback, search)
  }

  predicate PrlRatingMatches(p: PrlRating, term: string)
  {
    if term == "" then true
    else
      var search := LowerStr(term);
      FieldMatches(p.prlName, search) || FieldMatches(p.prlSurname, search)
      || FieldMatches(p.streamName, search)
  }

  predicate LecturerRatingMatches(l: LecturerRating, term: string)
  {
    if term == "" then true
    else
      var search := LowerStr(term);
      FieldMatches(l.lecturerName, search) || FieldMatches(l.lecturerSurname, search)
      || FieldMatches(l.streamName, search)
  }

  predicate LecturerMatches(l: Lecturer, term: string)
  {
    if term == "" then true
    else
      var search := LowerStr(term);
      FieldMatches(l.name, search) || FieldMatches(l.surname, search)
      || FieldMatches(l.username, search) || FieldMatches(l.streamName, search)
  }

  predicate StreamMatches(s: Stream, term: string)
  {
    if term == "" then true else FieldMatches(s.name, LowerStr(term))
  }

  predicate ModuleMatches(m: Module, term: string)
  {
    if term == "" then true
    else
      var search := LowerStr(term);
      FieldMatches(m.name, search) || FieldMatches(m.code, search)
      || FieldMatches(m.streamName, search)
  }

  /** The reports listing under search `term`: the reports, in order, of which one of
      faculty, lecturer, course, topic or feedback mentions the term; all of them for an
      empty term. */
  function FilteredReports(reports: seq<Report>, term: string): (r: seq<Report>)
    ensures Seqs.IsSubsequence(r, reports)
    ensures forall x :: x in r <==> x in reports && ReportMentions(x, term)
    ensures forall x :: x in reports && ReportMentions(x, term) ==> multiset(r)[x] == multiset(reports)[x]
    ensures term == "" ==> r == reports
  {
    var keep := (x: Report) => ReportMatches(x, term);
    assert term == "" ==> Seqs.Filter(reports, keep) == reports by {
      if term == "" { Seqs.FilterKeepsAll(reports, keep); }
    }
    Seqs.Filter(reports, keep)
  }

  /** The PRL ratings listing under search `term` (name, surname or stream). */
  function FilteredPrlRatings(ratings: seq<PrlRating>, term: string): (r: seq<PrlRating>)
    ensures Seqs.IsSubsequence(r, ratings)
    ensures forall x :: x in r <==> x in ratings && PrlRatingMentions(x, term)
    ensures forall x :: x in ratings && PrlRatingMentions(x, term) ==> multiset(r)[x] == multiset(ratings)[x]
    ensures term == "" ==> r == ratings
  {
    var keep := (x: PrlRating) => PrlRatingMatches(x, term);
    assert term == "" ==> Seqs.Filter(ratings, keep) == ratings by {
      if term == "" { Seqs.FilterKeepsAll(ratings, keep); }
    }
    Seqs.Filter(ratings, keep)
  }

  /** The lecturer ratings listing under search `term` (name, surname or stream). */
  function FilteredLecturerRatings(ratings: seq<LecturerRating>, term: string): (r: seq<LecturerRating>)
    ensures Seqs.IsSubsequence(r, ratings)
    ensures forall x :: x in r <==> x in ratings && LecturerRatingMentions(x, term)
    ensures forall x :: x in ratings && LecturerRatingMentions(x, term) ==> multiset(r)[x] == multiset(ratings)[x]
    ensures term == "" ==> r == ratings
  {
    var keep := (x: LecturerRating) => LecturerRatingMatches(x, term);
    assert term == "" ==> Seqs.Filter(ratings, keep) == ratings by {
      if term == "" { Seqs.FilterKeepsAll(ratings, keep); }
    }
    Seqs.Filter(ratings, keep)
  }

  /** The lecturers listing under search `term` (name, surname, username or stream). */
  function FilteredLecturers(lecturers: seq<Lecturer>, term: string): (r: seq<Lecturer>)
    ensures Seqs.IsSubsequence(r, lecturers)
    ensures forall x :: x in r <==> x in lecturers && LecturerMentions(x, term)
    ensures forall x :: x in lecturers && LecturerMentions(x, term) ==> multiset(r)[x] == multiset(lecturers)[x]
    ensures term == "" ==> r == lecturers
  {
    var keep := (x: Lecturer) => LecturerMatches(x, term);
    assert term == "" ==> Seqs.Filter(lecturers, keep) == lecturers by {
      if term == "" { Seqs.FilterKeepsAll(lecturers, keep); }
    }
    Seqs.Filter(lecturers, keep)
  }

  /** The streams listing under search `term` (name). */
  function FilteredStreams(streams: seq<Stream>, term: string): (r: seq<Stream>)
    ensures Seqs.IsSubsequence(r, streams)
    ensures forall x :: x in r <==> x in streams && StreamMentions(x, term)
    ensures forall x :: x in streams && StreamMentions(x, term) ==> multiset(r)[x] == multiset(streams)[x]
    ensures term == "" ==> r == streams
  {
    var keep := (x: Stream) => StreamMatches(x, term);
    assert term == "" ==> Seqs.Filter(streams, keep) == streams by {
      if term == "" { Seqs.FilterKeepsAll(streams, keep); }
    }
    Seqs.Filter(streams, keep)
  }

  /** The modules listing under search `term` (name, code or stream). */
  function FilteredModules(modules: seq<Module>, term: string): (r: seq<Module>)
    ensures Seqs.IsSubsequence(r, modules)
    ensures forall x :: x in r <==> x in modules && ModuleMentions(x, term)
    ensures forall x :: x in modules && ModuleMentions(x, term) ==> multiset(r)[x] == multiset(modules)[x]
    ensures term == "" ==> r == modules
  {
    var keep := (x: Module) => ModuleMatches(x, term);
    assert term == "" ==> Seqs.Filter(modules, keep) == modules by {
      if term == "" { Seqs.FilterKeepsAll(modules, keep); }
    }
    Seqs.Filter(modules, keep)
  }

  /** Two search terms that lower-case alike give every listing the same rows, so searching
      with a term and with its lower-case form is the same search. */
  lemma SearchIgnoresCase(
    reports: seq<Report>, prlRatings: seq<PrlRating>, lecturerRatings: seq<LecturerRating>,
    lecturers: seq<Lecturer>, streams: seq<Stream>, modules: seq<Module>, t1: string, t2: string)
    requires LowerStr(t1) == LowerStr(t2)
    ensures FilteredReports(reports, t1) == FilteredReports(reports, t2)
    ensures FilteredPrlRatings(prlRatings, t1) == FilteredPrlRatings(prlRatings, t2)
    ensures FilteredLecturerRatings(lecturerRatings, t1) == FilteredLecturerRatings(lecturerRatings, t2)
    ensures FilteredLecturers(lecturers, t1) == FilteredLecturers(lecturers, t2)
    ensures FilteredStreams(streams, t1) == FilteredStreams(streams, t2)
    ensures FilteredModules(modules, t1) == FilteredModules(modules, t2)
  {
    assert |t1| == |t2|;
    Seqs.FilterCongruent(reports, (x: Report) => ReportMatches(x, t1), (x: Report) => ReportMatches(x, t2));
    Seqs.FilterCongruent(prlRatings, (x: PrlRating) => PrlRatingMatches(x, t1),
      (x: PrlRating) => PrlRatingMatches(x, t2));
    Seqs.FilterCongruent(lecturerRatings, (x: LecturerRating) => LecturerRatingMatches(x, t1),
      (x: LecturerRating) => LecturerRatingMatches(x, t2));
    Seqs.FilterCongruent(lecturers, (x: Lecturer) => LecturerMatches(x, t1),
      (x: Lecturer) => LecturerMatches(x, t2));
    Seqs.FilterCongruent(streams, (x: Stream) => StreamMatches(x, t1), (x: Stream) => StreamMatches(x, t2));
    Seqs.FilterCongruent(modules, (x: Module) => ModuleMatches(x, t1), (x: Module) => ModuleMatches(x, t2));
  }

  /** Every listing selects the same rows for a search term and for its lower-case form. */
  lemma SearchByLowerCase(
    reports: seq<Report>, prlRatings: seq<PrlRating>, lecturerRatings: seq<LecturerRating>,
    lecturers: seq<Lecturer>, streams: seq<Stream>, modules: seq<Module>, term: string)
    ensures FilteredReports(reports, LowerStr(term)) == FilteredReports(reports, term)
    ensures FilteredPrlRatings(prlRatings, LowerStr(term)) == FilteredPrlRatings(prlRatings, term)
    ensures FilteredLecturerRatings(lecturerRatings, LowerStr(term))
      == FilteredLecturerRatings(lecturerRatings, term)
    ensures FilteredLecturers(lecturers, LowerStr(term)) == FilteredLecturers(lecturers, term)
    ensures FilteredStreams(streams, LowerStr(term)) == FilteredStreams(streams, term)
    ensures FilteredModules(modules, LowerStr(term)) == FilteredModules(modules, term)
  {
    LowerStrIdempotent(term);
    SearchIgnoresCase(reports, prlRatings, lecturerRatings, lecturers, streams, modules, LowerStr(term), term);
  }

  // ----- Modules by stream -----

  /** The modules the streams overview lists under `stream`. */
  function StreamModules(modules: seq<Module>, stream: Stream): (r: seq<Module>)
    ensures Seqs.IsSubsequence(r, modules)
    ensures forall m :: m in r <==> m in modules && m.streamId == Some(stream.id)
    ensures forall m: Module :: m.streamId == Some(stream.id) ==> multiset(r)[m] == multiset(modules)[m]
  {
    Seqs.Filter(modules, (m: Module) => m.streamId == Some(stream.id))
  }

  /** The modules the assign dialog offers for `lecturer`. */
  function AssignableModules(modules: seq<Module>, lecturer: Lecturer): (r: seq<Module>)
    ensures Seqs.IsSubsequence(r, modules)
    ensures forall m :: m in r <==> m in modules && m.streamId == lecturer.streamId
    ensures forall m: Module :: m.streamId == lecturer.streamId ==> multiset(r)[m] == multiset(modules)[m]
  {
    Seqs.Filter(modules, (m: Module) => m.streamId == lecturer.streamId)
  }

  /** Stream ids are distinct. */
  ghost predicate UniqueStreamIds(streams: seq<Stream>)
  {
    forall i, j :: 0 <= i < j < |streams| ==> streams[i].id != streams[j].id
  }

  /** In the overview a module appears under the stream its `stream_id` names and under no
      other; a module whose stream is not listed appears nowhere. */
  lemma ModuleUnderItsStreamOnly(modules: seq<Module>, streams: seq<Stream>, m: Module)
    requires UniqueStreamIds(streams) && m in modules
    ensures forall i :: 0 <= i < |streams| ==>
      (m in StreamModules(modules, streams[i]) <==> m.streamId == Some(streams[i].id))
    ensures forall i, j ::
      (0 <= i < |streams| && 0 <= j < |streams|
       && m in StreamModules(modules, streams[i]) && m in StreamModules(modules, streams[j])) ==> i == j
  {
  }

  /** The assign dialog offers a lecturer exactly the modules the overview lists under the
      lecturer's stream, in the same order. */
  lemma AssignableAreStreamModules(modules: seq<Module>, lecturer: Lecturer, stream: Stream)
    requires lecturer.streamId == Some(stream.id)
    ensures AssignableModules(modules, lecturer) == StreamModules(modules, stream)
  {
  }

  // ----- Rating bands -----

  /** The style class of an average rating card. */
  datatype Band = Excellent | Good | Fair | Poor

  /** Bands in increasing order. */
  function Rank(b: Band): nat
  {
    match b
    case Poor => 0
    case Fair => 1
    case Good => 2
    case Excellent => 3
  }

  /** The band of an average rating (`None` is a missing average, which compares as 0). */
  function RatingBand(average: Option<real>): (b: Band)
    ensures b == Excellent <==> average.Some? && average.value >= 4.0
    ensures b == Good <==> average.Some? && 3.0 <= average.value < 4.0
    ensures b == Fair <==> average.Some? && 2.0 <= average.value < 3.0
    ensures b == Poor <==> average.None? || average.value < 2.0
  {
    match average
    case None => Poor
    case Some(x) => if x >= 4.0 then Excellent else if x >= 3.0 then Good else if x >= 2.0 then Fair else Poor
  }

  /** A higher average never gets a lower band. */
  lemma BandMonotone(x: real, y: real)
    requires x <= y
    ensures Rank(RatingBand(Some(x))) <= Rank(RatingBand(Some(y)))
  {
  }

  /** How the average is printed: "N/A", or the number. */
  datatype Shown = NotAvailable | Score(value: real)

  /** `average ? average : 'N/A'`: a missing or zero average is not printed. */
  function AverageShown(average: Option<real>): (r: Shown)
    ensures r == NotAvailable <==> average.None? || average.value == 0.0
    ensures r.Score? ==> average == Some(r.value)
  {
    match average
    case None => NotAvailable
    case Some(x) => if x == 0.0 then NotAvailable else Score(x)
  }

  /** A card that prints "N/A" is always in the poor band, and a missing average is banded
      like an average of 0. */
  lemma NotAvailableIsPoor(average: Option<real>)
    ensures AverageShown(average) == NotAvailable ==> RatingBand(average) == Poor
    ensures RatingBand(None) == RatingBand(Some(0.0))
  {
  }

  // ----- Form checks -----

  /** A form field as the module form holds it: text from a select, or the number or `null`
      copied from the module being edited. */
  datatype FormValue = Text(text: string) | Number(number: int) | Null

  /** JavaScript truthiness of a form value. */
  predicate Truthy(v: FormValue)
  {
    match v
    case Text(t) => t != ""
    case Number(n) => n != 0
    case Null => false
  }

  datatype StreamForm = StreamForm(name: string)
  datatype ModuleForm = ModuleForm(name: string, code: string, streamId: FormValue)

  /** The requests the portal's forms send; each body is the form as filled in. */
  datatype Request =
    | PostStream(streamForm: StreamForm)                  // POST /api/pl/streams
    | PutStream(streamId: int, streamForm: StreamForm)    // PUT /api/pl/streams/:id
    | PostModule(moduleForm: ModuleForm)                  // POST /api/pl/modules
    | PutModule(moduleId: int, moduleForm: ModuleForm)    // PUT /api/pl/modules/:id
    | PostAssignment(lecturerId: int, selectedModule: string) // POST /api/pl/assign-module

  /** What a submit button does: send a request, or show an error and send nothing. */
  datatype Submission = Send(request: Request) | Refuse(message: string)

  /** `handleCreateStream`. */
  function CreateStream(form: StreamForm): (r: Submission)
    ensures r.Refuse? <==> IsBlank(form.name)
    ensures r.Refuse? ==> r.message == "Stream name is required"
    ensures r.Send? ==> r.request == PostStream(form)
  {
    if Trim(form.name) == "" then Refuse("Stream name is required") else Send(PostStream(form))
  }

  /** `handleUpdateStream`, while `editing` is open in the dialog. */
  function UpdateStream(editing: Stream, form: StreamForm): (r: Submission)
    ensures r.Refuse? <==> IsBlank(form.name)
    ensures r.Refuse? ==> r.message == "Stream name is required"
    ensures r.Send? ==> r.request == PutStream(editing.id, form)
  {
    if Trim(form.name) == "" then Refuse("Stream name is required") else Send(PutStream(editing.id, form))
  }

  /** The module form's own check, shared by create and update. */
  predicate ModuleFormIncomplete(form: ModuleForm)
  {
    Trim(form.name) == "" || Trim(form.code) == "" || !Truthy(form.streamId)
  }

  /** `handleCreateModule`. */
  function CreateModule(form: ModuleForm): (r: Submission)
    ensures r.Refuse? <==> IsBlank(form.name) || IsBlank(form.code) || !Truthy(form.streamId)
    ensures r.Refuse? ==> r.message == "All fields are required"
    ensures r.Send? ==> r.request == PostModule(form)
  {
    if ModuleFormIncomplete(form) then Refuse("All fields are required") else Send(PostModule(form))
  }

  /** `handleUpdateModule`, while `editing` is open in the dialog. */
  function UpdateModule(editing: Module, form: ModuleForm): (r: Submission)
    ensures r.Refuse? <==> IsBlank(form.name) || IsBlank(form.code) || !Truthy(form.streamId)
    ensures r.Refuse? ==> r.message == "All fields are required"
    ensures r.Send? ==> r.request == PutModule(editing.id, form)
  {
    if ModuleFormIncomplete(form) then Refuse("All fields are required") else Send(PutModule(editing.id, form))
  }

  /** `handleAssignModule` with the lecturer the dialog was opened for (if any) and the
      value of the module select ("" until a module is chosen). */
  function AssignModule(selected: Option<Lecturer>, moduleId: string): (r: Submission)
    ensures r.Refuse? <==> selected.None? || moduleId == ""
    ensures r.Refuse? ==> r.message == "Please select a module"
    ensures r.Send? ==> r.request == PostAssignment(selected.value.id, moduleId)
  {
    if selected.None? || moduleId == "" then Refuse("Please select a module")
    else Send(PostAssignment(selected.value.id, moduleId))
  }
}
