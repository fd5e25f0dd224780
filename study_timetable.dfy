/** The study timetable form (src/components/medico/study-timetable-creator.tsx):
    how the form's subjects field and exam date become the agent's input,
    and the guarded save of a generated timetable to the user's library. */
module StudyTimetable {
  import opened Common
  import opened Strings

  const TimetableTopicPrefix := "Study Timetable: "
  const NotesEntryType := "notes"
  /** What reading `split` of the missing first subjects entry throws. */
  const NoSubjectsError := "Cannot read properties of undefined (reading 'split')"

  /** `xs.map(s => s.trim())` */
  function TrimAll(xs: seq<string>): (r: seq<string>)
    ensures |r| == |xs|
    ensures forall i :: 0 <= i < |xs| ==> r[i] == Trim(xs[i])
  {
    if xs == [] then [] else [Trim(xs[0])] + TrimAll(xs[1..])
  }

  /** `xs.filter(Boolean)`: every non-empty string as often as it occurs,
      and no empty one; DropEmptyAppend states that the order is kept. */
  function DropEmpty(xs: seq<string>): (r: seq<string>)
    ensures |r| <= |xs|
    ensures forall x :: x in r <==> x in xs && x != ""
    ensures forall x :: multiset(r)[x] == if x == "" then 0 else multiset(xs)[x]
  {
    if xs == [] then []
    else
      assert xs == [xs[0]] + xs[1..];
      (if xs[0] != "" then [xs[0]] else []) + DropEmpty(xs[1..])
  }

  /** Filtering keeps the order: the non-empty strings of two lists one after
      the other are those of the first list, then those of the second. */
  lemma {:induction false} DropEmptyAppend(a: seq<string>, b: seq<string>)
    ensures DropEmpty(a + b) == DropEmpty(a) + DropEmpty(b)
  {
    if a == [] {
      assert a + b == b;
    } else {
      assert (a + b)[0] == a[0] && (a + b)[1..] == a[1..] + b;
      DropEmptyAppend(a[1..], b);
      if a[0] != "" {
        calc {
          DropEmpty(a + b);
          [a[0]] + DropEmpty(a[1..] + b);
          [a[0]] + (DropEmpty(a[1..]) + DropEmpty(b));
          { ConcatAssoc([a[0]], DropEmpty(a[1..]), DropEmpty(b)); }
          ([a[0]] + DropEmpty(a[1..])) + DropEmpty(b);
        }
      } else {
        assert DropEmpty(a + b) == DropEmpty(a[1..] + b);
      }
    }
  }

  /** A subject as the agent receives it: non-empty, without a comma and
      without surrounding white space. */
  predicate CleanSubject(x: string) {
    x != "" && ',' !in x && Trim(x) == x
  }

  /** `field.split(',').map(s => s.trim()).filter(Boolean)`: the subjects
      the agent receives, all clean, each the trimmed text of one piece. */
  function SubjectsOf(field: string): (r: seq<string>)
    ensures forall i :: 0 <= i < |r| ==> CleanSubject(r[i])
    ensures forall x :: x in r <==> x in TrimAll(Split(field, ',')) && x != ""
    ensures forall x :: x != "" ==> multiset(r)[x] == multiset(TrimAll(Split(field, ',')))[x]
  {
    var trimmed := TrimAll(Split(field, ','));
    CleanPieces(Split(field, ','));
    DropEmptyClean(trimmed);
    DropEmpty(trimmed)
  }

  /** A field without a comma is one subject, its trimmed text, unless that
      is empty. */
  lemma SubjectsOfOnePiece(a: string)
    requires ',' !in a
    ensures SubjectsOf(a) == if Trim(a) == "" then [] else [Trim(a)]
  {
    SplitNoSeparator(a, ',');
    assert TrimAll([a]) == [Trim(a)];
  }

  /** The subjects are read piece by piece from the left: the text before
      the first comma gives the first subject (if it is not blank), and the
      rest of the field gives the others, in order. */
  lemma SubjectsOfNextPiece(a: string, rest: string)
    requires ',' !in a
    ensures SubjectsOf(a + [','] + rest) ==
      (if Trim(a) == "" then [] else [Trim(a)]) + SubjectsOf(rest)
  {
    var ps := Split(rest, ',');
    calc {
      SubjectsOf(a + [','] + rest);
      DropEmpty(TrimAll(Split(a + [','] + rest, ',')));
      { SplitAppend(a, rest, ','); }
      DropEmpty(TrimAll([a] + ps));
      { TrimAllCons(a, ps); }
      DropEmpty([Trim(a)] + TrimAll(ps));
      { DropEmptyAppend([Trim(a)], TrimAll(ps)); }
      DropEmpty([Trim(a)]) + DropEmpty(TrimAll(ps));
      { DropEmptySingle(Trim(a)); }
      (if Trim(a) == "" then [] else [Trim(a)]) + DropEmpty(TrimAll(ps));
      (if Trim(a) == "" then [] else [Trim(a)]) + SubjectsOf(rest);
    }
  }

  lemma DropEmptySingle(x: string)
    ensures DropEmpty([x]) == if x == "" then [] else [x]
  {
    assert [x][1..] == [];
  }

  lemma TrimAllCons(x: string, xs: seq<string>)
    ensures TrimAll([x] + xs) == [Trim(x)] + TrimAll(xs)
  {
    assert ([x] + xs)[0] == x && ([x] + xs)[1..] == xs;
  }

  /** The trimmed pieces of a split on `,` hold no comma and are trimmed. */
  lemma CleanPieces(pieces: seq<string>)
    requires forall k :: 0 <= k < |pieces| ==> ',' !in pieces[k]
    ensures forall i :: 0 <= i < |pieces| ==> ',' !in TrimAll(pieces)[i] && Trim(TrimAll(pieces)[i]) == TrimAll(pieces)[i]
  {
    forall i | 0 <= i < |pieces|
      ensures ',' !in TrimAll(pieces)[i] && Trim(TrimAll(pieces)[i]) == TrimAll(pieces)[i]
    {
      TrimIdempotent(pieces[i]);
      TrimKeepsAbsent(pieces[i], ',');
    }
  }

  /** Dropping the empty strings of trimmed, comma-free pieces leaves clean subjects. */
  lemma {:induction false} DropEmptyClean(xs: seq<string>)
    requires forall i :: 0 <= i < |xs| ==> ',' !in xs[i] && Trim(xs[i]) == xs[i]
    ensures forall i :: 0 <= i < |DropEmpty(xs)| ==> CleanSubject(DropEmpty(xs)[i])
  {
    if xs != [] {
      DropEmptyClean(xs[1..]);
      var rest := DropEmpty(xs[1..]);
      if xs[0] != "" {
        assert DropEmpty(xs) == [xs[0]] + rest;
      } else {
        assert DropEmpty(xs) == rest;
      }
    }
  }

  /** Subjects typed as a comma-separated list come back as that list. */
  lemma SubjectsRoundTrip(subjects: seq<string>)
    requires subjects != []
    requires forall i :: 0 <= i < |subjects| ==> CleanSubject(subjects[i])
    ensures SubjectsOf(Join(subjects, [','])) == subjects
  {
    var field := Join(subjects, [',']);
    assert Split(field, ',') == subjects by {
      SplitJoin(subjects, ',');
    }
    assert TrimAll(subjects) == subjects by {
      TrimAllOfTrimmed(subjects);
    }
    DropEmptyOfNonEmpty(subjects);
  }

  lemma TrimAllOfTrimmed(xs: seq<string>)
    requires forall i :: 0 <= i < |xs| ==> Trim(xs[i]) == xs[i]
    ensures TrimAll(xs) == xs
  {
    assert forall i :: 0 <= i < |xs| ==> TrimAll(xs)[i] == xs[i];
  }

  lemma {:induction false} DropEmptyOfNonEmpty(xs: seq<string>)
    requires forall i :: 0 <= i < |xs| ==> xs[i] != ""
    ensures DropEmpty(xs) == xs
  {
    if xs != [] {
      DropEmptyOfNonEmpty(xs[1..]);
      assert [xs[0]] + xs[1..] == xs;
    }
  }

  /** `examDate.toISOString().split('T')[0]`, given the ISO text: the date
      part, before the first `T`. */
  function ExamDate(iso: string): (d: string)
    ensures d == BeforeFirst(iso, 'T')
    ensures 'T' !in d && d == iso[..|d|]
  {
    FirstPieceIsBeforeFirst(iso, 'T');
    Split(iso, 'T')[0]
  }

  /** The form's values; `subjects` holds the text field as its only entry. */
  datatype TimetableForm = TimetableForm(examName: string, examIso: string, subjects: seq<string>,
                                         studyHoursPerWeek: int, performanceContext: string)

  datatype AgentInput = AgentInput(examName: string, examDate: string, subjects: seq<string>,
                                   studyHoursPerWeek: int, performanceContext: string)

  /** `onSubmit`'s `inputForAgent`; with no subjects entry the `split` throws. */
  function InputForAgent(form: TimetableForm): (r: Result<AgentInput>)
    ensures r.Err? <==> form.subjects == []
    ensures r.Ok? ==>
      && r.value.subjects == SubjectsOf(form.subjects[0])
      && r.value.examDate == BeforeFirst(form.examIso, 'T')
      && r.value.examName == form.examName
      && r.value.studyHoursPerWeek == form.studyHoursPerWeek
      && r.value.performanceContext == form.performanceContext
  {
    if form.subjects == [] then Err(ErrorValue(NoSubjectsError))
    else Ok(AgentInput(form.examName, ExamDate(form.examIso), SubjectsOf(form.subjects[0]),
                       form.studyHoursPerWeek, form.performanceContext))
  }

  /** A generated timetable. */
  datatype Timetable = Timetable(performanceAnalysis: string, timetable: string)

  /** A document of the user's study library. */
  datatype LibraryEntry = LibraryEntry(entryType: string, topic: string, userId: string, notes: string)

  const NotesHeading := "\n## Study Timetable for "
  const NotesTail := "\n    "

  /** The saved notes: a heading with the exam name, the analysis, and the
      timetable, which closes the text up to the template's trailing line. */
  function NotesContent(examName: string, t: Timetable): (c: string)
    ensures |c| >= |NotesHeading| + |examName| + |t.performanceAnalysis| + |t.timetable| + |NotesTail|
    ensures c[..|NotesHeading|] == NotesHeading
    ensures c[|NotesHeading|..|NotesHeading| + |examName|] == examName
    ensures c[|c| - |NotesTail| - |t.timetable|..|c| - |NotesTail|] == t.timetable
    ensures c[|c| - |NotesTail|..] == NotesTail
  {
    NotesHeading + examName + "\n\n**Performance Analysis & Rationale:**\n"
    + t.performanceAnalysis + "\n\n---\n\n**Generated Timetable:**\n" + t.timetable + NotesTail
  }

  /** The entry `handleSaveToLibrary` writes. */
  function EntryFor(uid: string, examName: string, t: Timetable): (e: LibraryEntry)
    ensures e.entryType == NotesEntryType && e.userId == uid
    ensures |e.topic| == |TimetableTopicPrefix| + |examName|
    ensures e.topic[..|TimetableTopicPrefix|] == TimetableTopicPrefix
    ensures e.topic[|TimetableTopicPrefix|..] == examName
  {
    LibraryEntry(NotesEntryType, TimetableTopicPrefix + examName, uid, NotesContent(examName, t))
  }

  /** The study libraries, by user id. */
  class Libraries {
    var entries: map<string, seq<LibraryEntry>>

    constructor ()
      ensures entries == map[]
    {
      entries := map[];
    }

    /** `handleSaveToLibrary`, given whether the write succeeds: without a
        timetable or a user nothing is written; a failed write leaves the
        library as it was. */
    method SaveToLibrary(timetable: Option<Timetable>, uid: Option<string>, examName: string, writeOk: bool)
      returns (saved: bool)
      modifies this
      ensures saved <==> timetable.Some? && uid.Some? && writeOk
      ensures !saved ==> entries == old(entries)
      ensures saved ==>
        var u := uid.value;
        var before := if u in old(entries) then old(entries)[u] else [];
        entries == old(entries)[u := before + [EntryFor(u, examName, timetable.value)]]
    {
      if timetable.None? || uid.None? {
        return false;
      }
      if !writeOk {
        return false;
      }
      var u := uid.value;
      var before := if u in entries then entries[u] else [];
      entries := entries[u := before + [EntryFor(u, examName, timetable.value)]];
      return true;
    }
  }
}
