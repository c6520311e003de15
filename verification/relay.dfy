/**
 * The chat relay: the edge function that answers four kinds of question from the
 * student's own records, and forwards everything else, with a system prompt in
 * front, to the upstream chat-completions service, whose event stream it relays.
 * The data-store queries, the environment and the upstream call are inputs here.
 */
module Relay {
  import opened Wrappers
  import opened Text
  import opened Wire
  import Json

  // ---------------------------------------------------------------------------
  // Records, as the profile-scoped queries return them
  // ---------------------------------------------------------------------------

  /** A `profiles` row; only the columns the relay reads. */
  datatype Profile = Profile(name: string, rollNo: Option<string>, branch: Option<string>,
                             semester: Option<real>, cgpa: Option<real>, attendancePercent: Option<real>)

  /** An `enrollments` row joined with its course's name, code and credits. */
  datatype Enrollment = Enrollment(courseName: string, courseCode: string, credits: real)

  /** A `marks` row joined with its course's name and code. */
  datatype Mark = Mark(courseName: string, courseCode: string, internal: Option<real>, grade: Option<string>)

  /** An `attendance_records` row joined with its course's name. */
  datatype AttendanceRecord = AttendanceRecord(courseName: string, date: string, status: string)

  /** The `fees` row. */
  datatype Fee = Fee(totalFee: real, paid: Option<real>, pending: real, dueDate: Option<string>)

  /** What the handler has gathered before it looks at the question; `None` is JavaScript's `null`. */
  datatype StudentData = StudentData(profile: Option<Profile>, enrollments: Option<seq<Enrollment>>,
                                     marks: Option<seq<Mark>>, fees: Option<Fee>,
                                     attendance: Option<seq<AttendanceRecord>>)

  /**
   * The renderings the relay leaves to the JavaScript engine: a number in a
   * template, `toFixed(1)`, and `new Date(d).toLocaleDateString()`.
   */
  datatype Format = Format(number: real -> string, fixed1: real -> string, localDate: string -> string)

  /** A nullable number is truthy when present and not zero. */
  predicate Truthy(x: Option<real>) {
    x.Some? && x.value != 0.0
  }

  /** A nullable string is truthy when present and not empty. */
  predicate Filled(s: Option<string>) {
    s.Some? && s.value != ""
  }

  // ---------------------------------------------------------------------------
  // Which shortcut a question asks for
  // ---------------------------------------------------------------------------

  datatype Intent = Courses | Attendance | Marks | Fees

  /** `messages[messages.length - 1]?.content?.toLowerCase()` */
  function LastMessage(messages: seq<ChatMessage>): Option<string> {
    if |messages| == 0 then None else Some(Lower(messages[|messages| - 1].content))
  }

  /** `lastMessage?.includes(phrase)`, false when there is no last message. */
  predicate Mentions(last: Option<string>, phrase: string) {
    last.Some? && Contains(last.value, phrase)
  }

  /** The four tests, in the order the handler makes them; the first that holds wins. */
  function IntentOf(messages: seq<ChatMessage>): Option<Intent> {
    var last := LastMessage(messages);
    if Mentions(last, "what are my courses") || Mentions(last, "my courses") then Some(Courses)
    else if Mentions(last, "show my attendance") || Mentions(last, "my attendance") then Some(Attendance)
    else if Mentions(last, "check my marks") || Mentions(last, "my marks") then Some(Marks)
    else if Mentions(last, "fee status") || Mentions(last, "fees") then Some(Fees)
    else None
  }

  /** The longer phrases add nothing: each contains the shorter one tested beside it. */
  lemma LongPhrasesRedundant(last: Option<string>)
    ensures Mentions(last, "what are my courses") ==> Mentions(last, "my courses")
    ensures Mentions(last, "show my attendance") ==> Mentions(last, "my attendance")
    ensures Mentions(last, "check my marks") ==> Mentions(last, "my marks")
  {
    OccursAfter("what are ", "my courses");
    assert "what are " + "my courses" == "what are my courses";
    PhraseImplies(last, "what are " + "my courses", "my courses", 9);
    OccursAfter("show ", "my attendance");
    assert "show " + "my attendance" == "show my attendance";
    PhraseImplies(last, "show " + "my attendance", "my attendance", 5);
    OccursAfter("check ", "my marks");
    assert "check " + "my marks" == "check my marks";
    PhraseImplies(last, "check " + "my marks", "my marks", 6);
  }

  /** A message that mentions a phrase mentions every phrase inside it. */
  lemma PhraseImplies(last: Option<string>, long: string, short: string, i: nat)
    requires OccursAt(long, short, i)
    ensures Mentions(last, long) ==> Mentions(last, short)
  {
    ContainsIffOccurs(long, short);
    if last.Some? && Contains(last.value, long) {
      ContainsTransitive(last.value, long, short);
    }
  }

  /**
   * First match wins, in the order courses, attendance, marks, fees, each tested
   * by containment in the lower-cased last message; no match means no shortcut.
   */
  lemma IntentPrecedence(messages: seq<ChatMessage>)
    ensures var last := LastMessage(messages);
            && (IntentOf(messages) == Some(Courses) <==> Mentions(last, "my courses"))
            && (IntentOf(messages) == Some(Attendance) <==>
                  !Mentions(last, "my courses") && Mentions(last, "my attendance"))
            && (IntentOf(messages) == Some(Marks) <==>
                  !Mentions(last, "my courses") && !Mentions(last, "my attendance") && Mentions(last, "my marks"))
            && (IntentOf(messages) == Some(Fees) <==>
                  !Mentions(last, "my courses") && !Mentions(last, "my attendance") && !Mentions(last, "my marks")
                  && (Mentions(last, "fee status") || Mentions(last, "fees")))
            && (IntentOf(messages) == None <==>
                  !Mentions(last, "my courses") && !Mentions(last, "my attendance") && !Mentions(last, "my marks")
                  && !Mentions(last, "fee status") && !Mentions(last, "fees"))
  {
    LongPhrasesRedundant(LastMessage(messages));
  }

  // ---------------------------------------------------------------------------
  // The shortcut answers, written line by line as their templates lay them out
  // ---------------------------------------------------------------------------

  const NoCourses := "You don't have any enrolled courses yet."
  const CoursesHeader := "Here are your enrolled courses:"

  /** `• name (code) - credits credits` */
  function CourseLine(e: Enrollment, fmt: Format): string {
    "• " + e.courseName + " (" + e.courseCode + ") - " + fmt.number(e.credits) + " credits"
  }

  function CourseLines(es: seq<Enrollment>, fmt: Format): seq<string> {
    seq(|es|, i requires 0 <= i < |es| => CourseLine(es[i], fmt))
  }

  function CoursesAnswer(enrollments: Option<seq<Enrollment>>, fmt: Format): string {
    if enrollments.None? || |enrollments.value| == 0 then NoCourses
    else CoursesHeader + "\n\n" + Join(CourseLines(enrollments.value, fmt), "\n")
  }

  /**
   * The courses answer is the header, a blank line, and one line per enrollment
   * in the order the query returned them.
   */
  lemma CoursesAnswerLines(es: seq<Enrollment>, fmt: Format)
    requires |es| > 0
    requires forall i :: 0 <= i < |es| ==> '\n' !in CourseLine(es[i], fmt)
    ensures Split(CoursesAnswer(Some(es), fmt), '\n') == [CoursesHeader, ""] + CourseLines(es, fmt)
    ensures |Split(CoursesAnswer(Some(es), fmt), '\n')| == |es| + 2
  {
    var head, lines := [CoursesHeader, ""], CourseLines(es, fmt);
    assert head == [CoursesHeader] + [""];
    JoinSnoc([CoursesHeader], "", "\n");
    BlankLine(CoursesHeader);
    JoinAppend(head, lines, "\n");
    FreeAppend(head, lines, '\n');
    SplitJoin(head + lines, '\n');
  }

  const NoAttendance := "I couldn't fetch your attendance data."

  /** `attendanceRecords?.filter(r => r.status === 'present').length || 0` */
  function PresentCount(rs: seq<AttendanceRecord>): (n: nat)
    ensures n <= |rs|
    ensures n == |rs| <==> forall i :: 0 <= i < |rs| ==> rs[i].status == "present"
    ensures n == 0 <==> forall i :: 0 <= i < |rs| ==> rs[i].status != "present"
    decreases |rs|
  {
    if |rs| == 0 then 0
    else
      var n := PresentCount(rs[1..]);
      assert forall i :: 1 <= i < |rs| ==> rs[i] == rs[1..][i - 1];
      (if rs[0].status == "present" then 1 else 0) + n
  }

  /** `• course - ✓ (date)`, a cross for any status other than `present`. */
  function RecordLine(r: AttendanceRecord, fmt: Format): string {
    "• " + r.courseName + " - " + (if r.status == "present" then "✓" else "✗")
      + " (" + fmt.localDate(r.date) + ")"
  }

  function RecordLines(rs: seq<AttendanceRecord>, fmt: Format): seq<string> {
    seq(|rs|, i requires 0 <= i < |rs| => RecordLine(rs[i], fmt))
  }

  /** `slice(0, 5)`: the first five records, in the order the query returned them. */
  function Recent(rs: seq<AttendanceRecord>): seq<AttendanceRecord> {
    if |rs| <= 5 then rs else rs[..5]
  }

  /** `attendanceRecords?.slice(0, 5).map(...).join('\n') || 'No records'` */
  function RecordsSection(records: Option<seq<AttendanceRecord>>, fmt: Format): string {
    var joined := if records.None? then "" else Join(RecordLines(Recent(records.value), fmt), "\n");
    if joined == "" then "No records" else joined
  }

  /** The fallback text appears exactly when there are no records to list. */
  lemma NoRecordsFallback(records: Option<seq<AttendanceRecord>>, fmt: Format)
    ensures RecordsSection(records, fmt) == "No records" <==> records.GetOr([]) == []
  {
    if records.Some? && |records.value| > 0 {
      var lines := RecordLines(Recent(records.value), fmt);
      var joined := Join(lines, "\n");
      assert lines[0][0] == '•';
      assert |lines| == 1 || joined == lines[0] + "\n" + Join(lines[1..], "\n");
      assert joined[0] == '•';
    }
  }

  /** `attendance_percent?.toFixed(1)`, which renders as `undefined` when the column is null. */
  function Percent(p: Profile, fmt: Format): string {
    if p.attendancePercent.Some? then fmt.fixed1(p.attendancePercent.value) else "undefined"
  }

  function AttendanceAnswer(profile: Option<Profile>, records: Option<seq<AttendanceRecord>>,
                            fmt: Format): string
  {
    if profile.None? then NoAttendance
    else
      var rs := records.GetOr([]);
      "Your attendance summary:" + "\n\n"
        + ("Overall Attendance: " + Percent(profile.value, fmt) + "%") + "\n"
        + ("Recent classes: " + Decimal(PresentCount(rs)) + "/" + Decimal(|rs|) + " attended") + "\n\n"
        + "Recent records:" + "\n"
        + RecordsSection(records, fmt)
  }

  /** The fixed lines of the attendance answer, before the records. */
  function AttendanceHead(p: Profile, rs: seq<AttendanceRecord>, fmt: Format): seq<string> {
    ["Your attendance summary:", "",
     "Overall Attendance: " + Percent(p, fmt) + "%",
     "Recent classes: " + Decimal(PresentCount(rs)) + "/" + Decimal(|rs|) + " attended",
     "", "Recent records:"]
  }

  /** The attendance answer is its fixed lines, a line break, and the records section. */
  lemma AttendanceHeadJoin(p: Profile, records: Option<seq<AttendanceRecord>>, fmt: Format)
    ensures AttendanceAnswer(Some(p), records, fmt)
              == Join(AttendanceHead(p, records.GetOr([]), fmt), "\n") + "\n" + RecordsSection(records, fmt)
  {
    var rs := records.GetOr([]);
    var a, c := "Your attendance summary:", "Overall Attendance: " + Percent(p, fmt) + "%";
    var d := "Recent classes: " + Decimal(PresentCount(rs)) + "/" + Decimal(|rs|) + " attended";
    var f := "Recent records:";
    var head := AttendanceHead(p, rs, fmt);
    assert head == [a] + [""] + [c] + [d] + [""] + [f];
    JoinSnoc([a], "", "\n");
    BlankLine(a);
    JoinSnoc([a] + [""], c, "\n");
    JoinSnoc([a] + [""] + [c], d, "\n");
    JoinSnoc([a] + [""] + [c] + [d], "", "\n");
    BlankLine(Join([a] + [""] + [c] + [d], "\n"));
    JoinSnoc([a] + [""] + [c] + [d] + [""], f, "\n");
  }

  /** No fixed line of the attendance answer breaks. */
  lemma AttendanceHeadFree(p: Profile, rs: seq<AttendanceRecord>, fmt: Format)
    requires '\n' !in Percent(p, fmt)
    ensures forall k :: 0 <= k < |AttendanceHead(p, rs, fmt)| ==> '\n' !in AttendanceHead(p, rs, fmt)[k]
  {
    var present, total := Decimal(PresentCount(rs)), Decimal(|rs|);
    LabelFree("Overall Attendance: ", Percent(p, fmt));
    LabelFree("Overall Attendance: " + Percent(p, fmt), "%");
    LabelFree("Recent classes: ", present);
    LabelFree("Recent classes: " + present, "/");
    LabelFree("Recent classes: " + present + "/", total);
    LabelFree("Recent classes: " + present + "/" + total, " attended");
  }

  /**
   * The attendance answer: the summary lines with `present` out of `total`, then
   * one line for each of at most five records, or `No records` when there are none.
   */
  lemma AttendanceAnswerLines(p: Profile, records: Option<seq<AttendanceRecord>>, fmt: Format)
    requires '\n' !in Percent(p, fmt)
    requires forall r :: r in Recent(records.GetOr([])) ==> '\n' !in RecordLine(r, fmt)
    ensures var rs := records.GetOr([]);
            Split(AttendanceAnswer(Some(p), records, fmt), '\n')
              == AttendanceHead(p, rs, fmt) + (if rs == [] then ["No records"] else RecordLines(Recent(rs), fmt))
    ensures var rs := records.GetOr([]);
            && |Recent(rs)| <= 5 && Recent(rs) <= rs
            && (|rs| <= 5 ==> Recent(rs) == rs)
  {
    var rs := records.GetOr([]);
    var head := AttendanceHead(p, rs, fmt);
    AttendanceHeadJoin(p, records, fmt);
    NoRecordsFallback(records, fmt);
    var tail := if rs == [] then ["No records"] else RecordLines(Recent(rs), fmt);
    if rs == [] {
      JoinSnoc(head, "No records", "\n");
    } else {
      assert RecordsSection(records, fmt) == Join(tail, "\n");
      JoinAppend(head, tail, "\n");
    }
    AttendanceHeadFree(p, rs, fmt);
    FreeAppend(head, tail, '\n');
    SplitJoin(head + tail, '\n');
  }

  const NoMarks := "No marks available yet."

  /** `• name (code): internal marks - Grade: grade`, with `N/A` and `Pending` for falsy values. */
  function MarkLine(m: Mark, fmt: Format): string {
    "• " + m.courseName + " (" + m.courseCode + "): "
      + (if Truthy(m.internal) then fmt.number(m.internal.value) else "N/A")
      + " marks - Grade: " + (if Filled(m.grade) then m.grade.value else "Pending")
  }

  /** A mark of zero reads as a missing mark, and an empty grade as a missing grade. */
  lemma MarkLineFalsy(m: Mark, fmt: Format)
    ensures MarkLine(m.(internal := Some(0.0)), fmt) == MarkLine(m.(internal := None), fmt)
    ensures MarkLine(m.(grade := Some("")), fmt) == MarkLine(m.(grade := None), fmt)
    ensures !Truthy(m.internal) && !Filled(m.grade) ==>
              MarkLine(m, fmt) == "• " + m.courseName + " (" + m.courseCode + "): " + "N/A" + " marks - Grade: " + "Pending"
  {
  }

  function MarkLines(ms: seq<Mark>, fmt: Format): seq<string> {
    seq(|ms|, i requires 0 <= i < |ms| => MarkLine(ms[i], fmt))
  }

  /** `userProfile?.cgpa || 'N/A'` */
  function Cgpa(profile: Option<Profile>, fmt: Format): string {
    if profile.Some? && Truthy(profile.value.cgpa) then fmt.number(profile.value.cgpa.value) else "N/A"
  }

  function MarksAnswer(profile: Option<Profile>, marks: Option<seq<Mark>>, fmt: Format): string {
    if marks.None? || |marks.value| == 0 then NoMarks
    else "Your marks:" + "\n\n" + Join(MarkLines(marks.value, fmt), "\n") + "\n\n" + ("CGPA: " + Cgpa(profile, fmt))
  }

  /** The marks answer: header, blank line, one line per mark in order, blank line, CGPA. */
  lemma MarksAnswerLines(profile: Option<Profile>, ms: seq<Mark>, fmt: Format)
    requires |ms| > 0
    requires forall i :: 0 <= i < |ms| ==> '\n' !in MarkLine(ms[i], fmt)
    requires '\n' !in Cgpa(profile, fmt)
    ensures Split(MarksAnswer(profile, Some(ms), fmt), '\n')
              == ["Your marks:", ""] + MarkLines(ms, fmt) + ["", "CGPA: " + Cgpa(profile, fmt)]
  {
    var head, lines, g := ["Your marks:", ""], MarkLines(ms, fmt), "CGPA: " + Cgpa(profile, fmt);
    var all := head + lines + ["", g];
    MarksAnswerJoin(profile, ms, fmt);
    FreeAppend(head, lines, '\n');
    assert forall k :: 0 <= k < 2 ==> '\n' !in ["", g][k];
    FreeAppend(head + lines, ["", g], '\n');
    SplitJoin(all, '\n');
  }

  /** The marks answer is its lines joined by line breaks. */
  lemma MarksAnswerJoin(profile: Option<Profile>, ms: seq<Mark>, fmt: Format)
    requires |ms| > 0
    ensures MarksAnswer(profile, Some(ms), fmt)
              == Join(["Your marks:", ""] + MarkLines(ms, fmt) + ["", "CGPA: " + Cgpa(profile, fmt)], "\n")
  {
    var head, lines, g := ["Your marks:", ""], MarkLines(ms, fmt), "CGPA: " + Cgpa(profile, fmt);
    assert head == ["Your marks:"] + [""];
    JoinSnoc(["Your marks:"], "", "\n");
    BlankLine("Your marks:");
    JoinAppend(head, lines, "\n");
    JoinSnoc(head + lines, "", "\n");
    BlankLine(Join(head + lines, "\n"));
    JoinSnoc(head + lines + [""], g, "\n");
    assert head + lines + [""] + [g] == head + lines + ["", g];
  }

  const NoFees := "No fee information available."

  /** `fees.paid || 0` */
  function PaidShown(f: Fee): real {
    if Truthy(f.paid) then f.paid.value else 0.0
  }

  /** `Due Date: date` when `due_date` is set, otherwise nothing. */
  function DueLine(f: Fee, fmt: Format): string {
    if Filled(f.dueDate) then "Due Date: " + fmt.localDate(f.dueDate.value) else ""
  }

  function FeesAnswer(fees: Option<Fee>, fmt: Format): string {
    if fees.None? then NoFees
    else
      var f := fees.value;
      "Your fee status:" + "\n\n"
        + ("Total Fee: ₹" + fmt.number(f.totalFee)) + "\n"
        + ("Paid: ₹" + fmt.number(PaidShown(f))) + "\n"
        + ("Pending: ₹" + fmt.number(f.pending)) + "\n"
        + DueLine(f, fmt)
  }

  /** An unpaid fee reads the same whether `paid` is null or zero, and so does an empty due date. */
  lemma FeesFalsy(f: Fee, fmt: Format)
    ensures FeesAnswer(Some(f.(paid := None)), fmt) == FeesAnswer(Some(f.(paid := Some(0.0))), fmt)
    ensures FeesAnswer(Some(f.(dueDate := None)), fmt) == FeesAnswer(Some(f.(dueDate := Some(""))), fmt)
  {
  }

  /**
   * The fee answer is six lines: the header, a blank line, the three amounts with
   * the paid amount defaulting to 0, and the due-date line, empty unless a due date is set.
   */
  lemma FeesAnswerLines(f: Fee, fmt: Format)
    requires '\n' !in fmt.number(f.totalFee) && '\n' !in fmt.number(PaidShown(f)) && '\n' !in fmt.number(f.pending)
    requires Filled(f.dueDate) ==> '\n' !in fmt.localDate(f.dueDate.value)
    ensures Split(FeesAnswer(Some(f), fmt), '\n')
              == ["Your fee status:", "", "Total Fee: ₹" + fmt.number(f.totalFee), "Paid: ₹" + fmt.number(PaidShown(f)),
                  "Pending: ₹" + fmt.number(f.pending), DueLine(f, fmt)]
    ensures PaidShown(f) == (if f.paid.Some? then f.paid.value else 0.0)
    ensures DueLine(f, fmt) == "" <==> !Filled(f.dueDate)
  {
    var a, c := "Your fee status:", "Total Fee: ₹" + fmt.number(f.totalFee);
    var d, e, g := "Paid: ₹" + fmt.number(PaidShown(f)), "Pending: ₹" + fmt.number(f.pending), DueLine(f, fmt);
    JoinSnoc([a], "", "\n");
    BlankLine(a);
    JoinSnoc([a] + [""], c, "\n");
    JoinSnoc([a] + [""] + [c], d, "\n");
    JoinSnoc([a] + [""] + [c] + [d], e, "\n");
    JoinSnoc([a] + [""] + [c] + [d] + [e], g, "\n");
    var all := [a] + [""] + [c] + [d] + [e] + [g];
    assert all == [a, "", c, d, e, g];
    assert forall k :: 0 <= k < |all| ==> '\n' !in all[k];
    SplitJoin(all, '\n');
  }

  /** The courses intent falls back to its fixed text exactly when there are no enrollments. */
  lemma CoursesFallback(enrollments: Option<seq<Enrollment>>, fmt: Format)
    ensures CoursesAnswer(enrollments, fmt) == NoCourses <==> enrollments.GetOr([]) == []
  {
    if enrollments.GetOr([]) != [] {
      assert CoursesAnswer(enrollments, fmt)[0] == CoursesHeader[0] == 'H' != NoCourses[0];
    }
  }

  /** The attendance intent falls back to its fixed text exactly when there is no profile. */
  lemma AttendanceFallback(profile: Option<Profile>, records: Option<seq<AttendanceRecord>>, fmt: Format)
    ensures AttendanceAnswer(profile, records, fmt) == NoAttendance <==> profile.None?
  {
    if profile.Some? {
      assert AttendanceAnswer(profile, records, fmt)[0] == 'Y' != NoAttendance[0];
    }
  }

  /** The marks intent falls back to its fixed text exactly when there are no marks. */
  lemma MarksFallback(profile: Option<Profile>, marks: Option<seq<Mark>>, fmt: Format)
    ensures MarksAnswer(profile, marks, fmt) == NoMarks <==> marks.GetOr([]) == []
  {
    if marks.GetOr([]) != [] {
      assert MarksAnswer(profile, marks, fmt)[0] == 'Y' != NoMarks[0];
    }
  }

  /** The fees intent falls back to its fixed text exactly when there is no fee record. */
  lemma FeesFallback(fees: Option<Fee>, fmt: Format)
    ensures FeesAnswer(fees, fmt) == NoFees <==> fees.None?
  {
    if fees.Some? {
      assert FeesAnswer(fees, fmt)[0] == 'Y' != NoFees[0];
    }
  }

  /** The text of the shortcut answer for an intent. */
  function Answer(intent: Intent, data: StudentData, fmt: Format): string {
    match intent
    case Courses => CoursesAnswer(data.enrollments, fmt)
    case Attendance => AttendanceAnswer(data.profile, data.attendance, fmt)
    case Marks => MarksAnswer(data.profile, data.marks, fmt)
    case Fees => FeesAnswer(data.fees, fmt)
  }

  // ---------------------------------------------------------------------------
  // The system prompt and the upstream request
  // ---------------------------------------------------------------------------

  const PromptIntro := "You are an intelligent academic assistant for Horizon Institute of Technology students. You can help with:\n"
    + "- Subject doubts and explanations (Math, Physics, Computer Science, AI, Data Science, Deep Learning, Cloud Computing, etc.)\n"
    + "- Problem-solving and step-by-step solutions\n"
    + "- Conceptual understanding of topics\n"
    + "- Study tips and learning strategies\n"
    + "- College management system queries\n"
    + "- General academic guidance\n\n"

  const PromptOutro := "\n\nWhen students ask about their courses, attendance, marks, or fees, provide helpful information based on their profile data above.\n\n"
    + "Provide clear, accurate, and helpful responses. When explaining complex topics, break them down into simple steps. For math problems, show your work."

  const ProfileHeader := "Current Student Information:"

  /** A nullable text column in a template: `null` when missing. */
  function TextField(x: Option<string>): string {
    if x.Some? then x.value else "null"
  }

  /** A nullable number column in a template: `null` when missing. */
  function NumberField(x: Option<real>, fmt: Format): string {
    if x.Some? then fmt.number(x.value) else "null"
  }

  /** The student block: six labelled lines under a header, each ending in a line break. */
  function ProfileBlock(p: Profile, fmt: Format): string {
    ProfileHeader + "\n"
      + ("- Name: " + p.name) + "\n"
      + ("- Roll No: " + TextField(p.rollNo)) + "\n"
      + ("- Branch: " + TextField(p.branch)) + "\n"
      + ("- Semester: " + NumberField(p.semester, fmt)) + "\n"
      + ("- CGPA: " + NumberField(p.cgpa, fmt)) + "\n"
      + ("- Attendance: " + NumberField(p.attendancePercent, fmt) + "%") + "\n"
  }

  function SystemPrompt(profile: Option<Profile>, fmt: Format): string {
    PromptIntro + (if profile.Some? then ProfileBlock(profile.value, fmt) else "") + PromptOutro
  }

  /** The prompt always opens with the fixed introduction and closes with the fixed closing. */
  lemma PromptFramed(profile: Option<Profile>, fmt: Format)
    ensures StartsWith(SystemPrompt(profile, fmt), PromptIntro) && EndsWith(SystemPrompt(profile, fmt), PromptOutro)
  {
    Framed(PromptIntro, if profile.Some? then ProfileBlock(profile.value, fmt) else "", PromptOutro);
  }

  /** Between introduction and closing stands the student block, exactly when there is a profile. */
  lemma StudentBlockOnlyWithProfile(profile: Option<Profile>, fmt: Format)
    ensures var s := SystemPrompt(profile, fmt);
            |PromptIntro| + |PromptOutro| <= |s| &&
            var middle := s[|PromptIntro|..|s| - |PromptOutro|];
            && (middle == "" <==> profile.None?)
            && (profile.Some? ==> middle == ProfileBlock(profile.value, fmt))
  {
    var block := if profile.Some? then ProfileBlock(profile.value, fmt) else "";
    Framed(PromptIntro, block, PromptOutro);
    if profile.Some? {
      assert |block| >= |ProfileHeader|;
    }
  }

  /** The lines of the student block, the last one empty after its closing line break. */
  function ProfileLines(p: Profile, fmt: Format): seq<string> {
    [ProfileHeader, "- Name: " + p.name, "- Roll No: " + TextField(p.rollNo),
     "- Branch: " + TextField(p.branch), "- Semester: " + NumberField(p.semester, fmt),
     "- CGPA: " + NumberField(p.cgpa, fmt), "- Attendance: " + NumberField(p.attendancePercent, fmt) + "%", ""]
  }

  /** The student block is its lines joined by line breaks. */
  lemma ProfileBlockJoin(p: Profile, fmt: Format)
    ensures ProfileBlock(p, fmt) == Join(ProfileLines(p, fmt), "\n")
  {
    var a, b, c := ProfileHeader, "- Name: " + p.name, "- Roll No: " + TextField(p.rollNo);
    var d, e := "- Branch: " + TextField(p.branch), "- Semester: " + NumberField(p.semester, fmt);
    var f, g := "- CGPA: " + NumberField(p.cgpa, fmt), "- Attendance: " + NumberField(p.attendancePercent, fmt) + "%";
    JoinSnoc([a], b, "\n");
    JoinSnoc([a] + [b], c, "\n");
    JoinSnoc([a] + [b] + [c], d, "\n");
    JoinSnoc([a] + [b] + [c] + [d], e, "\n");
    JoinSnoc([a] + [b] + [c] + [d] + [e], f, "\n");
    JoinSnoc([a] + [b] + [c] + [d] + [e] + [f], g, "\n");
    JoinSnoc([a] + [b] + [c] + [d] + [e] + [f] + [g], "", "\n");
    AppendEmpty(ProfileBlock(p, fmt));
    assert ProfileLines(p, fmt) == [a] + [b] + [c] + [d] + [e] + [f] + [g] + [""];
  }

  /** No line of the student block breaks when no column holds a line break. */
  lemma ProfileLinesFree(p: Profile, fmt: Format)
    requires '\n' !in p.name && '\n' !in TextField(p.rollNo) && '\n' !in TextField(p.branch)
    requires '\n' !in NumberField(p.semester, fmt) && '\n' !in NumberField(p.cgpa, fmt)
    requires '\n' !in NumberField(p.attendancePercent, fmt)
    ensures forall k :: 0 <= k < |ProfileLines(p, fmt)| ==> '\n' !in ProfileLines(p, fmt)[k]
  {
    var ls := ProfileLines(p, fmt);
    LabelFree("- Name: ", p.name);
    LabelFree("- Roll No: ", TextField(p.rollNo));
    LabelFree("- Branch: ", TextField(p.branch));
    LabelFree("- Semester: ", NumberField(p.semester, fmt));
    LabelFree("- CGPA: ", NumberField(p.cgpa, fmt));
    LabelFree("- Attendance: ", NumberField(p.attendancePercent, fmt));
    LabelFree("- Attendance: " + NumberField(p.attendancePercent, fmt), "%");
  }

  /** A labelled value holds a line break only if the label or the value does. */
  lemma LabelFree(tag: string, value: string)
    requires '\n' !in tag && '\n' !in value
    ensures '\n' !in tag + value
  {
  }

  /**
   * The student block is seven lines, null columns reading `null`, and ends in a
   * line break.
   */
  lemma ProfileBlockLines(p: Profile, fmt: Format)
    requires '\n' !in p.name && '\n' !in TextField(p.rollNo) && '\n' !in TextField(p.branch)
    requires '\n' !in NumberField(p.semester, fmt) && '\n' !in NumberField(p.cgpa, fmt)
    requires '\n' !in NumberField(p.attendancePercent, fmt)
    ensures Split(ProfileBlock(p, fmt), '\n') == ProfileLines(p, fmt)
    ensures |ProfileLines(p, fmt)| == 8 && ProfileLines(p, fmt)[7] == ""
    ensures p.rollNo.None? ==> ProfileLines(p, fmt)[2] == "- Roll No: " + "null"
    ensures p.cgpa.None? ==> ProfileLines(p, fmt)[5] == "- CGPA: " + "null"
  {
    ProfileBlockJoin(p, fmt);
    ProfileLinesFree(p, fmt);
    SplitJoin(ProfileLines(p, fmt), '\n');
  }

  const UpstreamModel := "llama-3.3-70b-versatile"

  /** The chat-completions request the relay sends, as the fields of its JSON body and its bearer token. */
  datatype UpstreamRequest = UpstreamRequest(authorization: string, model: string, messages: seq<ChatMessage>,
                                             stream: bool, temperature: real, maxTokens: nat)

  function UpstreamCall(apiKey: string, messages: seq<ChatMessage>, profile: Option<Profile>,
                        fmt: Format): UpstreamRequest
  {
    UpstreamRequest("Bearer " + apiKey, UpstreamModel,
                    [ChatMessage("system", SystemPrompt(profile, fmt))] + messages, true, 0.7, 2000)
  }

  /**
   * The upstream sees the system prompt first and then the caller's messages,
   * all of them, unchanged and in order, on a streamed request.
   */
  lemma UpstreamKeepsConversation(apiKey: string, messages: seq<ChatMessage>, profile: Option<Profile>, fmt: Format)
    ensures var r := UpstreamCall(apiKey, messages, profile, fmt);
            && |r.messages| == |messages| + 1
            && r.messages[0].role == "system" && r.messages[0].content == SystemPrompt(profile, fmt)
            && r.messages[1..] == messages
            && (forall i :: 0 <= i < |messages| ==> r.messages[i + 1] == messages[i])
            && r.stream && r.model == UpstreamModel && r.maxTokens == 2000
            && StartsWith(r.authorization, "Bearer ") && r.authorization[7..] == apiKey
  {
  }

  // ---------------------------------------------------------------------------
  // Responses
  // ---------------------------------------------------------------------------

  type Header = (string, string)

  const CorsHeaders: seq<Header> := [("Access-Control-Allow-Origin", "*"),
    ("Access-Control-Allow-Headers", "authorization, x-client-info, apikey, content-type")]

  /** The two JSON objects the relay writes itself: `{ content }` and `{ error }`. */
  datatype Reply = Content(content: string) | Error(error: string)

  const ContentKey := "{\"content\":"
  const ErrorKey := "{\"error\":"

  /** `JSON.stringify` of a reply object. */
  function Serialize(r: Reply): string {
    match r
    case Content(text) => ContentKey + Json.Quote(text) + "}"
    case Error(text) => ErrorKey + Json.Quote(text) + "}"
  }

  /** Reads a serialized reply back, as the client's `response.json()` would. */
  function ReadReply(t: string): Option<Reply> {
    if |t| > |ContentKey| && StartsWith(t, ContentKey) && t[|t| - 1] == '}' then
      match Json.Unquote(t[|ContentKey|..|t| - 1])
      case Some(text) => Some(Content(text))
      case None => None
    else if |t| > |ErrorKey| && StartsWith(t, ErrorKey) && t[|t| - 1] == '}' then
      match Json.Unquote(t[|ErrorKey|..|t| - 1])
      case Some(text) => Some(Error(text))
      case None => None
    else None
  }

  /** `{ content }` reads back as itself. */
  lemma ContentRoundTrip(text: string)
    ensures ReadReply(Serialize(Content(text))) == Some(Content(text))
  {
    var q := Json.Quote(text);
    var t := Serialize(Content(text));
    assert t == ContentKey + q + "}";
    Framed(ContentKey, q, "}");
    assert t[|ContentKey|..|t| - 1] == q;
    Json.UnquoteQuote(text);
  }

  /** `{ error }` reads back as itself: it does not open like `{ content }`. */
  lemma ErrorRoundTrip(text: string)
    ensures ReadReply(Serialize(Error(text))) == Some(Error(text))
  {
    var q := Json.Quote(text);
    var t := Serialize(Error(text));
    assert t == ErrorKey + q + "}";
    Framed(ErrorKey, q, "}");
    assert t[|ErrorKey|..|t| - 1] == q;
    assert t[2] == ErrorKey[2] == 'e';
    assert !StartsWith(t, ContentKey) by {
      assert ContentKey[2] == 'c';
    }
    Json.UnquoteQuote(text);
  }

  /** A serialized reply reads back as itself, and it is written on one line. */
  lemma ReplyRoundTrip(r: Reply)
    ensures ReadReply(Serialize(r)) == Some(r)
    ensures '\n' !in Serialize(r)
  {
    if r.Content? {
      ContentRoundTrip(r.content);
    } else {
      ErrorRoundTrip(r.error);
    }
  }

  datatype Body = NoBody | JsonBody(reply: Reply) | EventStream(text: string)

  datatype Response = Response(status: int, headers: seq<Header>, body: Body)

  function JsonResponse(status: int, reply: Reply): Response {
    Response(status, CorsHeaders + [("Content-Type", "application/json")], JsonBody(reply))
  }

  const KeyMissing := "GROQ_API_KEY is not configured"
  const RateLimited := "Rate limits exceeded, please try again later."
  const UpstreamFailed := "AI API error"

  /** What the upstream call came back with: a failure to connect, or a status and a body. */
  datatype Upstream = Unreachable(message: string) | Replied(status: int, body: string)

  /** How the relay turns the upstream's answer into its own. */
  function Forward(u: Upstream): Response {
    match u
    case Unreachable(message) => JsonResponse(500, Error(message))
    case Replied(status, body) =>
      if 200 <= status <= 299 then
        Response(200, CorsHeaders + [("Content-Type", "text/event-stream")], EventStream(body))
      else if status == 429 then JsonResponse(429, Error(RateLimited))
      else JsonResponse(500, Error(UpstreamFailed))
  }

  /**
   * The status mapping: an OK upstream answer is relayed as an event stream with
   * status 200 and its body untouched; a 429 stays a 429; every other failure is a 500.
   */
  lemma StatusMapping(u: Upstream)
    ensures Forward(u).status in {200, 429, 500}
    ensures Forward(u).status == 200 <==> u.Replied? && 200 <= u.status < 300
    ensures Forward(u).status == 429 <==> u.Replied? && u.status == 429
    ensures Forward(u).body.EventStream? <==> Forward(u).status == 200
    ensures Forward(u).body.EventStream? ==> Forward(u).body.text == u.body
    ensures Forward(u).body.JsonBody? ==>
              Forward(u).body.reply == Error(if u.Unreachable? then u.message
                                                else if u.status == 429 then RateLimited else UpstreamFailed)
    ensures CorsHeaders <= Forward(u).headers && |Forward(u).headers| == |CorsHeaders| + 1
  {
  }

  // ---------------------------------------------------------------------------
  // The handler
  // ---------------------------------------------------------------------------

  /** The request body: unreadable as JSON, without a `messages` array, or the conversation. */
  datatype Payload = Unreadable(error: string) | NoMessages(error: string) | Messages(messages: seq<ChatMessage>)

  datatype Request = Request(verb: string, payload: Payload)

  /** `!GROQ_API_KEY` is false: the variable is set and not empty. */
  predicate KeySet(apiKey: Option<string>) {
    apiKey.Some? && apiKey.value != ""
  }

  /**
   * One request through the relay. The environment key, the student's records
   * and what the upstream would answer are inputs; `forwarded` is the request
   * sent upstream, if one was.
   */
  method Serve(req: Request, apiKey: Option<string>, data: StudentData, fmt: Format, upstream: Upstream)
    returns (response: Response, forwarded: Option<UpstreamRequest>)
    ensures CorsHeaders <= response.headers
    ensures req.verb == "OPTIONS" ==> response == Response(200, CorsHeaders, NoBody)
    ensures req.verb != "OPTIONS" && req.payload.Unreadable? ==>
              response == JsonResponse(500, Error(req.payload.error))
    ensures req.verb != "OPTIONS" && !req.payload.Unreadable? && !KeySet(apiKey) ==>
              response == JsonResponse(500, Error(KeyMissing))
    ensures req.verb != "OPTIONS" && req.payload.NoMessages? && KeySet(apiKey) ==>
              response == JsonResponse(500, Error(req.payload.error))
    ensures req.verb != "OPTIONS" && req.payload.Messages? && KeySet(apiKey) ==>
              match IntentOf(req.payload.messages)
              case Some(intent) => response == JsonResponse(200, Content(Answer(intent, data, fmt)))
              case None => response == Forward(upstream)
    ensures forwarded.Some? <==>
              req.verb != "OPTIONS" && req.payload.Messages? && KeySet(apiKey) && IntentOf(req.payload.messages).None?
    ensures forwarded.Some? ==> forwarded.value == UpstreamCall(apiKey.value, req.payload.messages, data.profile, fmt)
  {
    forwarded := None;
    if req.verb == "OPTIONS" {
      response := Response(200, CorsHeaders, NoBody);
    } else if req.payload.Unreadable? {
      response := JsonResponse(500, Error(req.payload.error));
    } else if !KeySet(apiKey) {
      response := JsonResponse(500, Error(KeyMissing));
    } else if req.payload.NoMessages? {
      response := JsonResponse(500, Error(req.payload.error));
    } else {
      var messages := req.payload.messages;
      var intent := IntentOf(messages);
      if intent.Some? {
        response := JsonResponse(200, Content(Answer(intent.value, data, fmt)));
      } else {
        forwarded := Some(UpstreamCall(apiKey.value, messages, data.profile, fmt));
        StatusMapping(upstream);
        response := Forward(upstream);
      }
    }
  }
}
