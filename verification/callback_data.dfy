// The wire format of callback buttons (libs/core/mitup_bot/callback_data.py): a base form with an
// optional origin, and one suffix per kind of callback.
module CallbackWire {
  import opened Wrappers
  import opened Decimal

  // ---- The data ----

  datatype BackTarget = MeetingEditor

  datatype MeetingListSource = ActiveList | JoinedList

  datatype Date = Date(year: nat, month: nat, day: nat)

  predicate LeapYear(year: nat) {
    year % 4 == 0 && (year % 100 != 0 || year % 400 == 0)
  }

  function DaysIn(year: nat, month: nat): nat {
    if month == 2 then (if LeapYear(year) then 29 else 28)
    else if month in {4, 6, 9, 11} then 30
    else 31
  }

  predicate IsCalendarDate(d: Date) {
    1 <= d.year <= 9999 && 1 <= d.month <= 12 && 1 <= d.day <= DaysIn(d.year, d.month)
  }

  type CalendarDate = d: Date | IsCalendarDate(d) witness Date(2023, 10, 15)

  datatype Suffix =
    | Plain
    | DateSuffix(date: Option<CalendarDate>)
    | CodeSuffix(code: Option<string>)
    | PageSuffix(page: Option<int>, source: Option<MeetingListSource>)
    | LevelSuffix(level: Option<int>)
    | MeetingSuffix(meetingId: Option<int>)

  // The declaration fixes the action, the entity and the kind of suffix; a button fills in the rest.
  datatype Declaration = Declaration(action: string, entity: string, kind: Kind)

  datatype Kind = Base | Dated | Coded | Paginated | Graded | OfMeeting

  datatype CallbackData = CallbackData(id: Option<int>, back: Option<BackTarget>, backId: Option<int>, suffix: Suffix)

  predicate OfKind(kind: Kind, suffix: Suffix) {
    match kind
    case Base => suffix.Plain?
    case Dated => suffix.DateSuffix?
    case Coded => suffix.CodeSuffix?
    case Paginated => suffix.PageSuffix?
    case Graded => suffix.LevelSuffix?
    case OfMeeting => suffix.MeetingSuffix?
  }

  // ---- Printing ----

  function OptInt(n: Option<int>): string {
    if n.None? then "" else PrintInt(n.value)
  }

  function Padded(n: nat): string {
    if n < 10 then "0" + Print(n) else Print(n)
  }

  function PaddedYear(year: nat): string {
    if year < 10 then "000" + Print(year)
    else if year < 100 then "00" + Print(year)
    else if year < 1000 then "0" + Print(year)
    else Print(year)
  }

  function SourceChar(source: MeetingListSource): char {
    match source case ActiveList => 'a' case JoinedList => 'j'
  }

  function PrintOrigin(d: CallbackData): string {
    if d.back.None? then "" else ";back:e" + OptInt(d.backId)
  }

  // A callback dated with no date cannot be printed.
  function PrintSuffix(suffix: Suffix): Option<string> {
    match suffix
    case Plain => Some("")
    case DateSuffix(date) =>
      if date.None? then None
      else Some(";date:" + PaddedYear(date.value.year) + "-" + Padded(date.value.month) + "-" + Padded(date.value.day))
    case CodeSuffix(code) => Some(";code:" + if code.None? then "" else code.value)
    case PageSuffix(page, source) =>
      Some((if page.None? then "" else ";page:" + PrintInt(page.value))
           + if source.None? then "" else ";src:" + [SourceChar(source.value)])
    case LevelSuffix(level) => Some(";lvl:" + OptInt(level))
    case MeetingSuffix(meetingId) =>
      Some(":" + if meetingId.None? || meetingId.value == 0 then "" else PrintInt(meetingId.value))
  }

  function Head(decl: Declaration): string {
    decl.action + ";" + decl.entity + ":"
  }

  function PrintData(decl: Declaration, d: CallbackData): Option<string> {
    match PrintSuffix(d.suffix)
    case None => None
    case Some(tail) => Some(Head(decl) + (OptInt(d.id) + (PrintOrigin(d) + tail)))
  }

  // ---- The pattern ----

  // What the groups of a match hold.
  datatype Origin = Origin(backId: string)
  datatype Tail =
    | NoTail
    | DateTail(year: string, month: string, day: string)
    | CodeTail(code: string)
    | PageTail(page: Option<string>, source: Option<char>)
    | LevelTail(level: string)
    | MeetingTail(meetingId: string)
  datatype Groups = Groups(id: string, origin: Option<Origin>, tail: Tail)

  predicate Digits(s: string) {
    forall i | 0 <= i < |s| :: IsDigit(s[i])
  }

  predicate IsCodeChar(c: char) {
    'A' <= c <= 'Z' || 'a' <= c <= 'z' || IsDigit(c) || c == '_' || c == '-'
  }

  predicate Codes(s: string) {
    forall i | 0 <= i < |s| :: IsCodeChar(s[i])
  }

  predicate TailFits(kind: Kind, t: Tail) {
    match kind
    case Base => t.NoTail?
    case Dated =>
      && t.DateTail? && |t.year| == 4 && |t.month| == 2 && |t.day| == 2
      && Digits(t.year) && Digits(t.month) && Digits(t.day)
    case Coded => t.CodeTail? && Codes(t.code)
    case Paginated =>
      t.PageTail? && (t.page.Some? ==> IsNumeral(t.page.value)) && (t.source.Some? ==> t.source.value in "aj")
    case Graded => t.LevelTail? && Digits(t.level)
    case OfMeeting => t.MeetingTail? && Digits(t.meetingId)
  }

  predicate GroupsFit(kind: Kind, g: Groups) {
    Digits(g.id) && (g.origin.Some? ==> Digits(g.origin.value.backId)) && TailFits(kind, g.tail)
  }

  function SpellPage(page: Option<string>): string {
    if page.None? then "" else ";page:" + page.value
  }

  function SpellSource(source: Option<char>): string {
    if source.None? then "" else ";src:" + [source.value]
  }

  function SpellTail(t: Tail): string {
    match t
    case NoTail => ""
    case DateTail(y, m, d) => ";date:" + y + "-" + m + "-" + d
    case CodeTail(code) => ";code:" + code
    case PageTail(page, source) => SpellPage(page) + SpellSource(source)
    case LevelTail(level) => ";lvl:" + level
    case MeetingTail(id) => ":" + id
  }

  function SpellOrigin(origin: Option<Origin>): string {
    if origin.None? then "" else ";back:e" + origin.value.backId
  }

  function SpellBody(g: Groups): string {
    g.id + (SpellOrigin(g.origin) + SpellTail(g.tail))
  }

  // The anchored pattern accepts `s` with these groups.
  predicate Matches(decl: Declaration, s: string, g: Groups) {
    GroupsFit(decl.kind, g) && s == Head(decl) + SpellBody(g)
  }

  // ---- A recogniser for it ----

  function DigitRun(s: string): (n: nat)
    ensures n <= |s| && Digits(s[..n]) && (n < |s| ==> !IsDigit(s[n]))
  {
    if s == "" || !IsDigit(s[0]) then 0
    else
      var n := 1 + DigitRun(s[1..]);
      assert s[..n] == [s[0]] + s[1..][..n - 1];
      n
  }

  lemma DigitRunIsAll(d: string, rest: string)
    requires Digits(d) && (rest == "" || !IsDigit(rest[0]))
    ensures DigitRun(d + rest) == |d| && (d + rest)[..|d|] == d && (d + rest)[|d|..] == rest
  {
    var s := d + rest;
    assert |d| < |s| ==> !IsDigit(s[|d|]);
    assert forall i | 0 <= i < DigitRun(s) :: s[..DigitRun(s)][i] == s[i];
  }

  // The optional parts are read greedily; neither can be read any other way.
  function TakeOrigin(s: string): (r: (Option<Origin>, string))
    ensures s == SpellOrigin(r.0) + r.1 && (r.0.Some? ==> Digits(r.0.value.backId))
  {
    if !(";back:e" <= s) then (None, s)
    else
      var after := s[7..];
      var n := DigitRun(after);
      assert s == ";back:e" + after[..n] + after[n..];
      (Some(Origin(after[..n])), after[n..])
  }

  lemma OriginTaken(origin: Option<Origin>, rest: string)
    requires origin.Some? ==> Digits(origin.value.backId)
    requires rest == "" || !IsDigit(rest[0])
    requires !(";back:e" <= rest)
    ensures TakeOrigin(SpellOrigin(origin) + rest) == (origin, rest)
  {
    if origin.Some? {
      assert (SpellOrigin(origin) + rest)[7..] == origin.value.backId + rest;
      DigitRunIsAll(origin.value.backId, rest);
    } else {
      assert SpellOrigin(origin) + rest == rest;
    }
  }

  function TakePage(s: string): (r: (Option<string>, string))
    ensures s == SpellPage(r.0) + r.1 && (r.0.Some? ==> IsNumeral(r.0.value))
  {
    var n := if ";page:" <= s then DigitRun(s[6..]) else 0;
    if n == 0 then (None, s)
    else
      var after := s[6..];
      assert s == ";page:" + after[..n] + after[n..];
      (Some(after[..n]), after[n..])
  }

  lemma PageTaken(page: Option<string>, source: Option<char>)
    requires page.Some? ==> IsNumeral(page.value)
    ensures TakePage(SpellPage(page) + SpellSource(source)) == (page, SpellSource(source))
  {
    var rest := SpellSource(source);
    if page.Some? {
      assert (SpellPage(page) + rest)[6..] == page.value + rest;
      DigitRunIsAll(page.value, rest);
    } else {
      assert SpellPage(page) + rest == rest;
    }
  }

  function RecogniseTail(kind: Kind, s: string): Option<Tail> {
    match kind
    case Base => if s == "" then Some(NoTail) else None
    case Dated =>
      if && |s| == 16 && s[..6] == ";date:" && s[10] == '-' && s[13] == '-'
         && Digits(s[6..10]) && Digits(s[11..13]) && Digits(s[14..])
      then Some(DateTail(s[6..10], s[11..13], s[14..])) else None
    case Coded => if ";code:" <= s && Codes(s[6..]) then Some(CodeTail(s[6..])) else None
    case Paginated =>
      var (page, rest) := TakePage(s);
      if rest == "" then Some(PageTail(page, None))
      else if |rest| == 6 && rest[..5] == ";src:" && rest[5] in "aj" then Some(PageTail(page, Some(rest[5])))
      else None
    case Graded => if ";lvl:" <= s && Digits(s[5..]) then Some(LevelTail(s[5..])) else None
    case OfMeeting => if ":" <= s && Digits(s[1..]) then Some(MeetingTail(s[1..])) else None
  }

  function RecogniseBody(kind: Kind, s: string): Option<Groups> {
    var n := DigitRun(s);
    var (origin, tail) := TakeOrigin(s[n..]);
    match RecogniseTail(kind, tail)
    case None => None
    case Some(t) => Some(Groups(s[..n], origin, t))
  }

  function Recognise(decl: Declaration, s: string): Option<Groups> {
    var head := Head(decl);
    if head <= s then RecogniseBody(decl.kind, s[|head|..]) else None
  }

  lemma PageRecognised(s: string)
    ensures var t := RecogniseTail(Paginated, s); t.Some? ==> TailFits(Paginated, t.value) && SpellTail(t.value) == s
  {
    var (page, rest) := TakePage(s);
    if |rest| == 6 {
      assert rest == rest[..5] + [rest[5]];
    }
  }

  lemma DateRecognised(s: string)
    ensures var t := RecogniseTail(Dated, s); t.Some? ==> TailFits(Dated, t.value) && SpellTail(t.value) == s
  {
    var t := RecogniseTail(Dated, s);
    if t.Some? {
      assert s == s[..6] + s[6..10] + [s[10]] + s[11..13] + [s[13]] + s[14..];
    }
  }

  lemma Prefixed(prefix: string, s: string)
    ensures prefix <= s ==> s == prefix + s[|prefix|..]
  {
  }

  lemma TailRecognised(kind: Kind, s: string)
    ensures var t := RecogniseTail(kind, s); t.Some? ==> TailFits(kind, t.value) && SpellTail(t.value) == s
  {
    match kind {
      case Base =>
      case Dated => DateRecognised(s);
      case Coded => Prefixed(";code:", s);
      case Paginated => PageRecognised(s);
      case Graded => Prefixed(";lvl:", s);
      case OfMeeting => Prefixed(":", s);
    }
  }

  lemma DateSpelled(t: Tail)
    requires TailFits(Dated, t)
    ensures RecogniseTail(Dated, SpellTail(t)) == Some(t)
  {
    var s := SpellTail(t);
    assert s[..6] == ";date:" && s[6..10] == t.year && s[11..13] == t.month && s[14..] == t.day;
  }

  lemma PageSpelled(t: Tail)
    requires TailFits(Paginated, t)
    ensures RecogniseTail(Paginated, SpellTail(t)) == Some(t)
  {
    PageTaken(t.page, t.source);
    if t.source.Some? {
      assert SpellSource(t.source)[..5] == ";src:";
    }
  }

  lemma TailSpelled(kind: Kind, t: Tail)
    requires TailFits(kind, t)
    ensures RecogniseTail(kind, SpellTail(t)) == Some(t)
  {
    match kind {
      case Base =>
      case Dated => DateSpelled(t);
      case Coded => assert SpellTail(t)[6..] == t.code;
      case Paginated => PageSpelled(t);
      case Graded => assert SpellTail(t)[5..] == t.level;
      case OfMeeting => assert SpellTail(t)[1..] == t.meetingId;
    }
  }

  // A suffix begins with no digit and looks like no origin.
  lemma TailStart(kind: Kind, t: Tail)
    requires TailFits(kind, t)
    ensures var s := SpellTail(t); s == "" || (!IsDigit(s[0]) && (|s| > 1 && s[0] == ';' ==> s[1] != 'b'))
  {
  }

  // The pattern and the recogniser agree on every string, so a match has one reading.
  lemma RecogniserIsThePattern(decl: Declaration, s: string, g: Groups)
    ensures Matches(decl, s, g) <==> Recognise(decl, s) == Some(g)
  {
    if Matches(decl, s, g) {
      assert s[|Head(decl)|..] == SpellBody(g);
      BodySpelled(decl.kind, g);
    }
    if Recognise(decl, s) == Some(g) {
      RecognisedMatches(decl, s, g);
    }
  }

  lemma RecognisedMatches(decl: Declaration, s: string, g: Groups)
    requires Recognise(decl, s) == Some(g)
    ensures Matches(decl, s, g)
  {
    BodyRecognised(decl.kind, s[|Head(decl)|..]);
    assert s == Head(decl) + s[|Head(decl)|..];
  }

  lemma BodySpelled(kind: Kind, g: Groups)
    requires GroupsFit(kind, g)
    ensures RecogniseBody(kind, SpellBody(g)) == Some(g)
  {
    TailStart(kind, g.tail);
    TailSpelled(kind, g.tail);
    BodySplits(kind, g.id, g.origin, SpellTail(g.tail));
  }

  lemma SplitAt(s: string, n: nat)
    requires n <= |s|
    ensures s[..n] + s[n..] == s
  {
  }

  lemma BodyRecognised(kind: Kind, s: string)
    ensures var g := RecogniseBody(kind, s); g.Some? ==> GroupsFit(kind, g.value) && SpellBody(g.value) == s
  {
    var n := DigitRun(s);
    var (origin, tail) := TakeOrigin(s[n..]);
    TailRecognised(kind, tail);
    match RecogniseTail(kind, tail) {
      case None =>
      case Some(t) =>
        var g := Groups(s[..n], origin, t);
        assert SpellBody(g) == s[..n] + s[n..];
        SplitAt(s, n);
    }
  }

  // ---- Parsing ----

  function ReadOptional(s: string): Option<int>
    requires Digits(s)
  {
    if s == "" then None else Some(Read(s))
  }

  function SourceOf(c: char): MeetingListSource
    requires c in "aj"
  {
    if c == 'a' then ActiveList else JoinedList
  }

  // The validators of the model; `None` is a validation error.
  function ValidateSuffix(kind: Kind, t: Tail): Option<Suffix>
    requires TailFits(kind, t)
  {
    match t
    case NoTail => Some(Plain)
    case DateTail(y, m, d) =>
      var date := Date(Read(y), Read(m), Read(d));
      if IsCalendarDate(date) then Some(DateSuffix(Some(date))) else None
    case CodeTail(code) => Some(CodeSuffix(if code == "" then None else Some(code)))
    case PageTail(page, source) =>
      if page.Some? && Read(page.value) == 0 then None
      else Some(PageSuffix(if page.None? then None else Some(Read(page.value)),
                           if source.None? then None else Some(SourceOf(source.value))))
    case LevelTail(level) => Some(LevelSuffix(ReadOptional(level)))
    case MeetingTail(id) => Some(MeetingSuffix(ReadOptional(id)))
  }

  datatype Parsed = NoMatch | Rejected | Parsed(data: CallbackData)

  function Validate(kind: Kind, g: Groups): Parsed
    requires GroupsFit(kind, g)
  {
    match ValidateSuffix(kind, g.tail)
    case None => Rejected
    case Some(suffix) =>
      Parsed(CallbackData(ReadOptional(g.id),
                          if g.origin.None? then None else Some(MeetingEditor),
                          if g.origin.None? then None else ReadOptional(g.origin.value.backId),
                          suffix))
  }

  function Parse(decl: Declaration, s: string): Parsed {
    match Recognise(decl, s)
    case None => NoMatch
    case Some(g) =>
      BodyRecognised(decl.kind, s[|Head(decl)|..]);
      Validate(decl.kind, g)
  }

  // ---- Round trips ----

  predicate CanonicalSuffix(suffix: Suffix) {
    match suffix
    case Plain => true
    case DateSuffix(date) => date.Some?
    case CodeSuffix(code) => code.Some? ==> code.value != "" && Codes(code.value)
    case PageSuffix(page, _) => page.Some? ==> page.value >= 1
    case LevelSuffix(level) => level.Some? ==> level.value >= 0
    case MeetingSuffix(meetingId) => meetingId.Some? ==> meetingId.value > 0
  }

  // What survives the wire: no negative number, an origin's id only beside an origin, a date, a code of the url
  // alphabet, a page from 1, a meeting id from 1.
  predicate Canonical(d: CallbackData) {
    CanonicalBase(d) && CanonicalSuffix(d.suffix)
  }

  predicate CanonicalBase(d: CallbackData) {
    && (d.id.Some? ==> d.id.value >= 0)
    && (d.backId.Some? ==> d.back.Some? && d.backId.value >= 0)
  }

  function OriginOf(d: CallbackData): Option<Origin> {
    if d.back.None? then None else Some(Origin(OptInt(d.backId)))
  }

  lemma ReadOptInt(n: Option<int>)
    requires n.Some? ==> n.value >= 0
    ensures Digits(OptInt(n)) && ReadOptional(OptInt(n)) == n
  {
    if n.Some? {
      ReadPrint(n.value);
    }
  }

  // The printed form falls apart where the parts were joined, whatever the suffix is.
  lemma PrintedSplits(decl: Declaration, d: CallbackData)
    requires PrintSuffix(d.suffix).Some?
    requires (d.id.Some? ==> d.id.value >= 0) && (d.backId.Some? ==> d.backId.value >= 0)
    ensures var t := RecogniseTail(decl.kind, PrintSuffix(d.suffix).value);
            Recognise(decl, PrintData(decl, d).value)
            == if t.None? then None else Some(Groups(OptInt(d.id), OriginOf(d), t.value))
  {
    var tail := PrintSuffix(d.suffix).value;
    var body := OptInt(d.id) + (PrintOrigin(d) + tail);
    ReadOptInt(d.id);
    ReadOptInt(d.backId);
    SuffixStart(d.suffix);
    assert PrintOrigin(d) == SpellOrigin(OriginOf(d));
    BodySplits(decl.kind, OptInt(d.id), OriginOf(d), tail);
    assert PrintData(decl, d).value[|Head(decl)|..] == body;
  }

  lemma BodySplits(kind: Kind, id: string, origin: Option<Origin>, tail: string)
    requires Digits(id) && (origin.Some? ==> Digits(origin.value.backId))
    requires tail == "" || (!IsDigit(tail[0]) && (|tail| > 1 && tail[0] == ';' ==> tail[1] != 'b'))
    ensures var t := RecogniseTail(kind, tail);
            RecogniseBody(kind, id + (SpellOrigin(origin) + tail))
            == if t.None? then None else Some(Groups(id, origin, t.value))
  {
    assert !(";back:e" <= tail);
    OriginTaken(origin, tail);
    DigitRunIsAll(id, SpellOrigin(origin) + tail);
  }

  lemma SuffixStart(suffix: Suffix)
    requires PrintSuffix(suffix).Some?
    ensures var s := PrintSuffix(suffix).value; s == "" || (!IsDigit(s[0]) && (|s| > 1 && s[0] == ';' ==> s[1] != 'b'))
  {
  }

  // The suffix as the groups of its pattern.
  function TailOf(suffix: Suffix): Tail
    requires CanonicalSuffix(suffix)
  {
    match suffix
    case Plain => NoTail
    case DateSuffix(date) => DateTail(PaddedYear(date.value.year), Padded(date.value.month), Padded(date.value.day))
    case CodeSuffix(code) => CodeTail(if code.None? then "" else code.value)
    case PageSuffix(page, source) =>
      PageTail(if page.None? then None else Some(Print(page.value)),
               if source.None? then None else Some(SourceChar(source.value)))
    case LevelSuffix(level) => LevelTail(OptInt(level))
    case MeetingSuffix(meetingId) => MeetingTail(OptInt(meetingId))
  }

  lemma PaddedReads(n: nat)
    requires n < 100
    ensures |Padded(n)| == 2 && Digits(Padded(n)) && Read(Padded(n)) == n
  {
    ReadPrint(n);
  }

  lemma YearReads(n: nat)
    requires n <= 9999
    ensures |PaddedYear(n)| == 4 && Digits(PaddedYear(n)) && Read(PaddedYear(n)) == n
  {
    var p := Print(n);
    ReadPrint(n);
    YearLength(n);
    LeadingZero(p);
    LeadingZero("0" + p);
    LeadingZero("0" + ("0" + p));
    assert "0" + ("0" + p) == "00" + p && "0" + ("0" + ("0" + p)) == "000" + p;
  }

  lemma YearLength(n: nat)
    requires n <= 9999
    ensures |Print(n)| == if n < 10 then 1 else if n < 100 then 2 else if n < 1000 then 3 else 4
  {
    assert n < 10 || |Print(n)| == 1 + |Print(n / 10)|;
    assert n < 100 || |Print(n / 10)| == 1 + |Print(n / 100)|;
    assert n < 1000 || |Print(n / 100)| == 1 + |Print(n / 1000)|;
  }

  // A leading zero does not change what a numeral reads as.
  lemma {:induction false} LeadingZero(s: string)
    requires IsNumeral(s)
    ensures IsNumeral("0" + s) && Read("0" + s) == Read(s)
  {
    var last := |s| - 1;
    if last > 0 {
      LeadingZero(s[..last]);
    }
    assert ("0" + s)[..last + 1] == "0" + s[..last];
    assert Read("0") == 0;
  }

  lemma DateParses(date: CalendarDate)
    ensures var t := TailOf(DateSuffix(Some(date)));
            && TailFits(Dated, t) && PrintSuffix(DateSuffix(Some(date))) == Some(SpellTail(t))
            && ValidateSuffix(Dated, t) == Some(DateSuffix(Some(date)))
  {
    YearReads(date.year);
    PaddedReads(date.month);
    PaddedReads(date.day);
  }

  lemma PageParses(page: Option<int>, source: Option<MeetingListSource>)
    requires page.Some? ==> page.value >= 1
    ensures var suffix := PageSuffix(page, source);
            var t := TailOf(suffix);
            && TailFits(Paginated, t) && PrintSuffix(suffix) == Some(SpellTail(t))
            && ValidateSuffix(Paginated, t) == Some(suffix)
  {
    if page.Some? {
      ReadPrint(page.value);
    }
    assert source.Some? ==> SourceOf(SourceChar(source.value)) == source.value;
  }

  lemma CanonicalSuffixParses(kind: Kind, suffix: Suffix)
    requires OfKind(kind, suffix) && CanonicalSuffix(suffix)
    ensures TailFits(kind, TailOf(suffix)) && PrintSuffix(suffix) == Some(SpellTail(TailOf(suffix)))
    ensures ValidateSuffix(kind, TailOf(suffix)) == Some(suffix)
  {
    match suffix {
      case Plain =>
      case DateSuffix(date) => DateParses(date.value);
      case CodeSuffix(_) =>
      case PageSuffix(page, source) => PageParses(page, source);
      case LevelSuffix(level) => ReadOptInt(level);
      case MeetingSuffix(meetingId) => ReadOptInt(meetingId);
    }
  }

  predicate ComesBack(decl: Declaration, d: CallbackData) {
    PrintData(decl, d).Some? && Parse(decl, PrintData(decl, d).value) == Parsed(d)
  }

  // A button comes back from the wire as it was built exactly when it is canonical.
  lemma RoundTripsIffCanonical(decl: Declaration, d: CallbackData)
    requires OfKind(decl.kind, d.suffix)
    ensures ComesBack(decl, d) <==> Canonical(d)
  {
    if Canonical(d) {
      CanonicalComesBack(decl, d);
    }
    if ComesBack(decl, d) {
      AcceptedIsCanonicalIff(decl, PrintData(decl, d).value);
      if d.suffix == MeetingSuffix(Some(0)) {
        MeetingZeroIsLost(decl, d);
      }
    }
  }

  // Meeting 0 is printed as no meeting.
  lemma MeetingZeroIsLost(decl: Declaration, d: CallbackData)
    requires OfKind(decl.kind, d.suffix) && d.suffix == MeetingSuffix(Some(0)) && CanonicalBase(d)
    ensures !ComesBack(decl, d)
  {
    var none := d.(suffix := MeetingSuffix(None));
    CanonicalComesBack(decl, none);
    assert PrintData(decl, d) == PrintData(decl, none);
  }

  lemma CanonicalComesBack(decl: Declaration, d: CallbackData)
    requires OfKind(decl.kind, d.suffix) && Canonical(d)
    ensures ComesBack(decl, d)
  {
    CanonicalSuffixParses(decl.kind, d.suffix);
    TailSpelled(decl.kind, TailOf(d.suffix));
    PrintedSplits(decl, d);
    GroupsValidate(decl.kind, d);
    assert Recognise(decl, PrintData(decl, d).value) == Some(GroupsOf(d));
  }

  function GroupsOf(d: CallbackData): Groups
    requires CanonicalSuffix(d.suffix)
  {
    Groups(OptInt(d.id), OriginOf(d), TailOf(d.suffix))
  }

  lemma GroupsValidate(kind: Kind, d: CallbackData)
    requires OfKind(kind, d.suffix) && Canonical(d)
    ensures GroupsFit(kind, GroupsOf(d)) && Validate(kind, GroupsOf(d)) == Parsed(d)
  {
    CanonicalSuffixParses(kind, d.suffix);
    ReadOptInt(d.id);
    ReadOptInt(d.backId);
    assert d.back.Some? ==> d.back.value.MeetingEditor?;
  }

  // Two canonical buttons never share a wire form.
  lemma PrintingIsInjective(decl: Declaration, d: CallbackData, d': CallbackData)
    requires OfKind(decl.kind, d.suffix) && OfKind(decl.kind, d'.suffix) && Canonical(d) && Canonical(d')
    requires PrintData(decl, d) == PrintData(decl, d')
    ensures d == d'
  {
    RoundTripsIffCanonical(decl, d);
    RoundTripsIffCanonical(decl, d');
  }

  // Whatever arrives and is accepted can be sent back and read again, unless it names meeting 0: the
  // wire has a form for it that printing does not.
  lemma AcceptedIsCanonicalIff(decl: Declaration, s: string)
    requires Parse(decl, s).Parsed?
    ensures var d := Parse(decl, s).data;
            && OfKind(decl.kind, d.suffix)
            && CanonicalBase(d) && (Canonical(d) <==> d.suffix != MeetingSuffix(Some(0)))
  {
    BodyRecognised(decl.kind, s[|Head(decl)|..]);
    ValidatedIsCanonicalIff(decl.kind, Recognise(decl, s).value);
  }

  lemma ValidatedIsCanonicalIff(kind: Kind, g: Groups)
    requires GroupsFit(kind, g) && Validate(kind, g).Parsed?
    ensures var d := Validate(kind, g).data;
            && OfKind(kind, d.suffix)
            && CanonicalBase(d) && (Canonical(d) <==> d.suffix != MeetingSuffix(Some(0)))
  {
  }

  // ---- The wire form itself ----

  // Every printed and every accepted form begins with the action and the entity of the declaration.
  lemma WireNamesTheDeclaration(decl: Declaration, d: CallbackData, s: string)
    ensures PrintData(decl, d).Some? ==> decl.action + ";" + decl.entity + ":" <= PrintData(decl, d).value
    ensures Parse(decl, s) != NoMatch ==> decl.action + ";" + decl.entity + ":" <= s
  {
  }

  predicate PlainName(name: string) {
    forall i | 0 <= i < |name| :: name[i] != ';' && name[i] != ':'
  }

  // A form two declarations accept has one action and one entity.
  lemma AcceptedByOneDeclaration(decl: Declaration, decl': Declaration, s: string)
    requires PlainName(decl.action) && PlainName(decl.entity) && PlainName(decl'.action) && PlainName(decl'.entity)
    requires Parse(decl, s) != NoMatch && Parse(decl', s) != NoMatch
    ensures decl.action == decl'.action && decl.entity == decl'.entity
  {
    var tail, tail' := s[|Head(decl)|..], s[|Head(decl')|..];
    BeginsWithHead(decl, s);
    BeginsWithHead(decl', s);
    CutAt(decl.action, decl'.action, ';', decl.entity + [':'] + tail, decl'.entity + [':'] + tail');
    CutAt(decl.entity, decl'.entity, ':', tail, tail');
  }

  lemma BeginsWithHead(decl: Declaration, s: string)
    requires Parse(decl, s) != NoMatch
    ensures |Head(decl)| <= |s| && s == decl.action + [';'] + (decl.entity + [':'] + s[|Head(decl)|..])
  {
    SplitAt(s, |Head(decl)|);
    Regrouped(decl.action, decl.entity, s[|Head(decl)|..]);
  }

  lemma Regrouped(action: string, entity: string, tail: string)
    ensures action + ";" + entity + ":" + tail == action + [';'] + (entity + [':'] + tail)
  {
  }

  // What stands before the first `c` is fixed by the whole.
  lemma CutAt(a: string, b: string, c: char, rest: string, rest': string)
    requires a + [c] + rest == b + [c] + rest' && c !in a && c !in b
    ensures a == b && rest == rest'
  {
    var s := a + [c] + rest;
    assert s == b + [c] + rest';
    assert s[|a|] == c && s[|b|] == c;
    assert forall i | 0 <= i < |a| :: s[i] == a[i] && s[i] != c;
    assert forall i | 0 <= i < |b| :: s[i] == b[i] && s[i] != c;
    assert |a| == |b|;
    assert a == s[..|a|] && b == s[..|b|];
    assert rest == s[|a| + 1..] && rest' == s[|b| + 1..];
  }

  // The documented examples of each format.
  lemma DocumentedBase()
    ensures PrintData(Declaration("edit", "meet_title", Base), CallbackData(Some(42), None, None, Plain))
         == Some("edit;meet_title:42")
    ensures PrintData(Declaration("show", "meeting", Base), CallbackData(Some(7), Some(MeetingEditor), Some(42), Plain))
         == Some("show;meeting:7;back:e42")
  {
    assert Print(42) == "42" && Print(7) == "7";
    assert Head(Declaration("edit", "meet_title", Base)) == "edit;meet_title:";
    assert "edit;meet_title:" + ("42" + ("" + "")) == "edit;meet_title:42";
    assert Head(Declaration("show", "meeting", Base)) == "show;meeting:";
    assert ";back:e" + "42" == ";back:e42";
    assert "show;meeting:" + ("7" + (";back:e42" + "")) == "show;meeting:7;back:e42";
  }

  lemma DocumentedDate()
    ensures PrintSuffix(DateSuffix(Some(Date(2023, 10, 15)))) == Some(";date:2023-10-15")
  {
    assert Print(15) == "15" && Print(10) == "10";
    assert Print(20) == "20" && Print(202) == "202" && Print(2023) == "2023";
    assert ";date:" + "2023" + "-" + "10" + "-" + "15" == ";date:2023-10-15";
  }

  lemma PaddedDate()
    ensures PrintSuffix(DateSuffix(Some(Date(987, 6, 5)))) == Some(";date:0987-06-05")
  {
    assert Print(98) == "98" && Print(987) == "987" && Padded(6) == "06" && Padded(5) == "05";
    assert PaddedYear(987) == "0987";
    assert ";date:" + "0987" + "-" + "06" + "-" + "05" == ";date:0987-06-05";
  }

  lemma DocumentedSuffixes()
    ensures PrintSuffix(CodeSuffix(Some("xLd2-mQ7"))) == Some(";code:xLd2-mQ7")
    ensures PrintSuffix(PageSuffix(Some(3), Some(JoinedList))) == Some(";page:3;src:j")
    ensures PrintSuffix(PageSuffix(Some(3), Some(ActiveList))) == Some(";page:3;src:a")
    ensures PrintSuffix(LevelSuffix(Some(2))) == Some(";lvl:2")
    ensures PrintSuffix(MeetingSuffix(Some(42))) == Some(":42") && PrintSuffix(Plain) == Some("")
  {
    assert Print(3) == "3" && Print(2) == "2" && Print(42) == "42";
    assert ";code:" + "xLd2-mQ7" == ";code:xLd2-mQ7";
    assert ";page:" + "3" == ";page:3" && ";src:" + ['j'] == ";src:j" && ";src:" + ['a'] == ";src:a";
    assert ";page:3" + ";src:j" == ";page:3;src:j" && ";page:3" + ";src:a" == ";page:3;src:a";
    assert ";lvl:" + "2" == ";lvl:2" && ":" + "42" == ":42";
  }
}
