/** The appointment-history page of an assisted user (HistoricoUser): the records
    fetched from the consultation API are normalised once, then filtered, sorted,
    summarised and exported on every render; feedback edits rewrite the list. */
module History {
  import opened Wrappers
  import opened Text

  // ---------------------------------------------------------------------------
  // Records

  datatype Feedback = Feedback(rating: int, comment: Option<string>)

  /** HistoricoConsulta. `date` is the record's instant as a millisecond timestamp;
      `specialty` is the field the source calls `type`. */
  datatype Consulta = Consulta(
    id: string,
    date: int,
    time: string,
    name: string,
    specialty: string,
    serviceType: string,
    status: string,
    feedback: Option<Feedback>,
    duration: int,
    cost: int)

  /** One record as the consultation API returns it (ConsultaOutput). */
  datatype ConsultaOutput = ConsultaOutput(
    id: int,
    horario: string,
    nomeVoluntario: string,
    especialidadeVoluntario: string,
    modalidade: string,
    status: string,
    avaliacao: Option<int>,
    feedback: Option<string>)

  const DefaultDuration := 50
  const DefaultCost := 0
  const DefaultTime := "00:00"

  // ---------------------------------------------------------------------------
  // Normaliser

  /** `s.split(c)[1]`: the text between the first and the second `c` (or the end),
      absent when `s` has no `c`. */
  function SecondPiece(s: string, c: char): (r: Option<string>)
    ensures r.None? <==> c !in s
    ensures r.Some? ==> c !in r.value
  {
    match IndexOf(s, c)
    case None => None
    case Some(i) =>
      var rest := s[i + 1..];
      match IndexOf(rest, c)
      case None => Some(rest)
      case Some(j) => Some(rest[..j])
  }

  /** `s.substring(0, n)`. */
  function Take(s: string, n: nat): (r: string)
    ensures r <= s && |r| == if |s| <= n then |s| else n
  {
    if |s| <= n then s else s[..n]
  }

  /** `horario.split('T')[1]?.substring(0, 5) || '00:00'`. */
  function TimeOf(horario: string): (time: string)
    ensures 'T' !in horario ==> time == DefaultTime
    ensures 0 < |time| <= 5 && 'T' !in time
  {
    match SecondPiece(horario, 'T')
    case None => DefaultTime
    case Some(piece) =>
      var t := Take(piece, 5);
      assert forall k :: 0 <= k < |t| ==> t[k] == piece[k];
      if t == "" then DefaultTime else t
  }

  /** For an ISO date-time `date + "T" + "HH:MM" + rest`, the time is the `HH:MM` part. */
  lemma TimeOfIsoDateTime(date: string, hhmm: string, rest: string)
    requires 'T' !in date && 'T' !in hhmm && |hhmm| == 5
    ensures TimeOf(date + "T" + hhmm + rest) == hhmm
  {
    var h := date + "T" + hhmm + rest;
    assert h[|date|] == 'T';
    assert h[..|date|] == date;
    var i := IndexOf(h, 'T').value;
    var tail := h[i + 1..];
    assert tail == hhmm + rest;
    match IndexOf(tail, 'T')
    case None =>
    case Some(j) =>
      assert tail[..j][..5] == hhmm;
  }

  /** In `date + "T" + tail` with no `T` in `date`, the first `T` is the one after `date`. */
  lemma FirstSeparator(date: string, tail: string)
    requires 'T' !in date
    ensures IndexOf(date + "T" + tail, 'T') == Some(|date|)
    ensures (date + "T" + tail)[..|date|] == date && (date + "T" + tail)[|date| + 1..] == tail
  {
    var h := date + "T" + tail;
    assert h[|date|] == 'T' && h[..|date|] == date;
  }

  lemma TimeOfPiece(h: string, piece: string)
    requires SecondPiece(h, 'T') == Some(piece)
    ensures TimeOf(h) == if piece == "" then DefaultTime else Take(piece, 5)
  {
  }

  /** The time is read from the piece after the first `T`, up to the next `T`: at most
      its first five characters, or `00:00` when that piece is empty. */
  lemma TimeOfAfterSeparator(date: string, piece: string, rest: string)
    requires 'T' !in date && 'T' !in piece
    ensures TimeOf(date + "T" + piece) == if piece == "" then DefaultTime else Take(piece, 5)
    ensures TimeOf(date + "T" + piece + "T" + rest) == if piece == "" then DefaultTime else Take(piece, 5)
  {
    FirstSeparator(date, piece);
    TimeOfPiece(date + "T" + piece, piece);
    var tail := piece + "T" + rest;
    var h := date + "T" + piece + "T" + rest;
    assert h == date + "T" + tail;
    FirstSeparator(date, tail);
    FirstSeparator(piece, rest);
    TimeOfPiece(h, piece);
  }

  /** The normaliser applied to each API record on load. */
  function Normalise(c: ConsultaOutput, parseDate: string -> int): (r: Consulta)
    ensures r.id == IntToString(c.id) && r.date == parseDate(c.horario) && r.time == TimeOf(c.horario)
    ensures r.name == c.nomeVoluntario && r.specialty == c.especialidadeVoluntario
    ensures r.serviceType == c.modalidade && r.status == c.status
    ensures r.duration == DefaultDuration && r.cost == DefaultCost
    ensures r.feedback.Some? <==> c.avaliacao.Some? && c.avaliacao.value != 0
    ensures r.feedback.Some? ==> r.feedback.value == Feedback(c.avaliacao.value, c.feedback)
  {
    Consulta(
      id := IntToString(c.id),
      date := parseDate(c.horario),
      time := TimeOf(c.horario),
      name := c.nomeVoluntario,
      specialty := c.especialidadeVoluntario,
      serviceType := c.modalidade,
      status := c.status,
      feedback := if c.avaliacao.Some? && c.avaliacao.value != 0
                  then Some(Feedback(c.avaliacao.value, c.feedback)) else None,
      duration := DefaultDuration,
      cost := DefaultCost)
  }

  function NormaliseAll(xs: seq<ConsultaOutput>, parseDate: string -> int): (r: seq<Consulta>)
    ensures |r| == |xs| && forall i :: 0 <= i < |xs| ==> r[i] == Normalise(xs[i], parseDate)
  {
    seq(|xs|, i requires 0 <= i < |xs| => Normalise(xs[i], parseDate))
  }

  // ---------------------------------------------------------------------------
  // Filter

  /** What the filter and the export need from the clock and from date-fns: the
      three period cutoffs computed from "now", and the two date formats. */
  datatype Calendar = Calendar(
    monthAgo: int,
    threeMonthsAgo: int,
    yearAgo: int,
    longDate: int -> string,   // format(date, "dd 'de' MMMM 'de' yyyy", { locale: ptBR })
    shortDate: int -> string)  // format(date, "dd/MM/yyyy")

  /** The filter criteria held by the page: `selectedPeriod`, `filterStatus`, `searchTerm`. */
  datatype Criteria = Criteria(period: string, status: Option<string>, searchTerm: string)

  /** The instant before which records are dropped; none for "all" or an unknown period. */
  function Cutoff(period: string, cal: Calendar): Option<int>
  {
    if period == "all" then None
    else if period == "month" then Some(cal.monthAgo)
    else if period == "3months" then Some(cal.threeMonthsAgo)
    else if period == "year" then Some(cal.yearAgo)
    else None
  }

  predicate InPeriod(c: Consulta, period: string, cal: Calendar)
  {
    Cutoff(period, cal).Some? ==> c.date >= Cutoff(period, cal).value
  }

  /** `!(filterStatus && consulta.status !== filterStatus)`. */
  predicate HasStatus(c: Consulta, status: Option<string>)
  {
    status.None? || status.value == "" || c.status == status.value
  }

  predicate MatchesSearch(c: Consulta, term: string, cal: Calendar)
  {
    term == "" ||
    var q := Lower(term);
    || Contains(Lower(c.name), q)
    || Contains(Lower(c.specialty), q)
    || Contains(Lower(c.serviceType), q)
    || Contains(Lower(cal.longDate(c.date)), q)
  }

  /** The search is case-insensitive: two terms that differ only in letter case match
      the same records, and a term may be lower-cased first without effect. */
  lemma SearchIgnoresCase(c: Consulta, t1: string, t2: string, cal: Calendar)
    requires Lower(t1) == Lower(t2)
    ensures MatchesSearch(c, t1, cal) == MatchesSearch(c, t2, cal)
    ensures MatchesSearch(c, Lower(t1), cal) == MatchesSearch(c, t1, cal)
  {
    LowerIdempotent(t1);
  }

  predicate Keep(c: Consulta, crit: Criteria, cal: Calendar)
  {
    InPeriod(c, crit.period, cal) && HasStatus(c, crit.status) && MatchesSearch(c, crit.searchTerm, cal)
  }

  /** The `.filter(...)` half of `filteredHistorico`. */
  function Select(s: seq<Consulta>, crit: Criteria, cal: Calendar): (r: seq<Consulta>)
    ensures |r| <= |s| && forall i :: 0 <= i < |r| ==> Keep(r[i], crit, cal)
  {
    if s == [] then []
    else if Keep(s[0], crit, cal) then [s[0]] + Select(s[1..], crit, cal)
    else Select(s[1..], crit, cal)
  }

  /** `r` is `s` with some elements left out, the rest in their order. */
  predicate SubsequenceOf<T(==)>(r: seq<T>, s: seq<T>)
    decreases |s|
  {
    r == [] || (s != [] && ((r[0] == s[0] && SubsequenceOf(r[1..], s[1..])) || SubsequenceOf(r, s[1..])))
  }

  lemma {:induction false} SelectIsSubsequence(s: seq<Consulta>, crit: Criteria, cal: Calendar)
    ensures SubsequenceOf(Select(s, crit, cal), s)
  {
    if s != [] {
      SelectIsSubsequence(s[1..], crit, cal);
      if Keep(s[0], crit, cal) {
        assert ([s[0]] + Select(s[1..], crit, cal))[1..] == Select(s[1..], crit, cal);
      }
    }
  }

  /** A record is in the filtered list iff it is in the list and meets every criterion. */
  lemma {:induction false} SelectMembers(s: seq<Consulta>, crit: Criteria, cal: Calendar, x: Consulta)
    ensures x in Select(s, crit, cal) <==> x in s && Keep(x, crit, cal)
  {
    if s != [] {
      SelectMembers(s[1..], crit, cal, x);
      assert s == [s[0]] + s[1..];
    }
  }

  /** With period "all", no status and an empty search term nothing is dropped. */
  lemma {:induction false} SelectNoCriteria(s: seq<Consulta>, cal: Calendar)
    ensures Select(s, Criteria("all", None, ""), cal) == s
  {
    if s != [] {
      SelectNoCriteria(s[1..], cal);
      assert s == [s[0]] + s[1..];
    }
  }

  lemma {:induction false} SelectIdempotent(s: seq<Consulta>, crit: Criteria, cal: Calendar)
    ensures Select(Select(s, crit, cal), crit, cal) == Select(s, crit, cal)
  {
    if s != [] {
      SelectIdempotent(s[1..], crit, cal);
      if Keep(s[0], crit, cal) {
        var r := [s[0]] + Select(s[1..], crit, cal);
        assert r[0] == s[0] && r[1..] == Select(s[1..], crit, cal);
      }
    }
  }

  /** Each predicate on its own: a record is dropped by the period criterion only when it
      lies strictly before the cutoff, and a set status admits only records with that status. */
  lemma PeriodAndStatus(s: seq<Consulta>, crit: Criteria, cal: Calendar, x: Consulta)
    requires x in Select(s, crit, cal)
    ensures Cutoff(crit.period, cal).Some? ==> x.date >= Cutoff(crit.period, cal).value
    ensures crit.status.Some? && crit.status.value != "" ==> x.status == crit.status.value
    ensures crit.searchTerm != "" ==> MatchesSearch(x, crit.searchTerm, cal)
  {
    SelectMembers(s, crit, cal, x);
  }

  lemma PeriodOnly(s: seq<Consulta>, period: string, cal: Calendar, x: Consulta)
    requires x in s
    ensures x !in Select(s, Criteria(period, None, ""), cal) <==>
            Cutoff(period, cal).Some? && x.date < Cutoff(period, cal).value
  {
    SelectMembers(s, Criteria(period, None, ""), cal, x);
  }

  /** The status-toggle buttons: pressing the button of the active status clears the
      filter, otherwise it selects that status. */
  function ToggleStatus(current: Option<string>, status: string): (r: Option<string>)
    ensures r == Some(status) <==> current != Some(status)
    ensures r.None? <==> current == Some(status)
  {
    if current == Some(status) then None else Some(status)
  }

  lemma ToggleTwice(current: Option<string>, status: string)
    requires current.None? || current == Some(status)
    ensures ToggleStatus(ToggleStatus(current, status), status) == current
  {
  }

  // ---------------------------------------------------------------------------
  // Sort

  datatype SortField = ByDate | ByRating | ByType
  datatype SortOrder = Asc | Desc

  /** `c.feedback?.rating || 0`. */
  function RatingOf(c: Consulta): int
  {
    if c.feedback.Some? then c.feedback.value.rating else 0
  }

  /** The order `localeCompare` stands for, taken here as code-unit lexicographic order. */
  function CompareText(a: string, b: string): (r: int)
    ensures -1 <= r <= 1
  {
    if a == [] && b == [] then 0
    else if a == [] then -1
    else if b == [] then 1
    else if a[0] < b[0] then -1
    else if a[0] > b[0] then 1
    else CompareText(a[1..], b[1..])
  }

  lemma {:induction false} CompareTextAntisymmetric(a: string, b: string)
    ensures CompareText(a, b) == -CompareText(b, a)
  {
    if a != [] && b != [] && a[0] == b[0] {
      CompareTextAntisymmetric(a[1..], b[1..]);
    }
  }

  lemma {:induction false} CompareTextZero(a: string, b: string)
    ensures CompareText(a, b) == 0 <==> a == b
  {
    if a != [] && b != [] && a[0] == b[0] {
      CompareTextZero(a[1..], b[1..]);
      assert a == [a[0]] + a[1..] && b == [b[0]] + b[1..];
    }
  }

  lemma {:induction false} CompareTextTransitive(a: string, b: string, c: string)
    requires CompareText(a, b) <= 0 && CompareText(b, c) <= 0
    ensures CompareText(a, c) <= 0
  {
    if a != [] && b != [] && c != [] && a[0] == b[0] && b[0] == c[0] {
      CompareTextTransitive(a[1..], b[1..], c[1..]);
    }
  }

  /** The comparator of `filteredHistorico`'s `.sort(...)` before the direction is applied. */
  function Compare(field: SortField, a: Consulta, b: Consulta): int
  {
    match field
    case ByDate => a.date - b.date
    case ByRating => RatingOf(a) - RatingOf(b)
    case ByType => CompareText(a.specialty, b.specialty)
  }

  /** `sortOrder === "desc" ? -comparison : comparison`. */
  function Directed(field: SortField, order: SortOrder, a: Consulta, b: Consulta): int
  {
    if order == Desc then -Compare(field, a, b) else Compare(field, a, b)
  }

  predicate Le(field: SortField, order: SortOrder, a: Consulta, b: Consulta)
  {
    Directed(field, order, a, b) <= 0
  }

  lemma CompareAntisymmetric(field: SortField, a: Consulta, b: Consulta)
    ensures Compare(field, a, b) == -Compare(field, b, a)
  {
    if field == ByType { CompareTextAntisymmetric(a.specialty, b.specialty); }
  }

  /** Two records that tie compare alike with every third record. */
  lemma TieSubstitutes(field: SortField, a: Consulta, b: Consulta, c: Consulta)
    requires Compare(field, a, b) == 0
    ensures Compare(field, a, c) == Compare(field, b, c)
  {
    if field == ByType { CompareTextZero(a.specialty, b.specialty); }
  }

  lemma LeTransitive(field: SortField, order: SortOrder, a: Consulta, b: Consulta, c: Consulta)
    requires Le(field, order, a, b) && Le(field, order, b, c)
    ensures Le(field, order, a, c)
  {
    if field == ByType {
      if order == Asc {
        CompareTextTransitive(a.specialty, b.specialty, c.specialty);
      } else {
        CompareTextAntisymmetric(a.specialty, b.specialty);
        CompareTextAntisymmetric(b.specialty, c.specialty);
        CompareTextAntisymmetric(a.specialty, c.specialty);
        CompareTextTransitive(c.specialty, b.specialty, a.specialty);
      }
    }
  }

  /** Strictly before, then not after, is strictly before. */
  lemma LtLeTransitive(field: SortField, order: SortOrder, a: Consulta, b: Consulta, c: Consulta)
    requires Directed(field, order, a, b) < 0 && Le(field, order, b, c)
    ensures Directed(field, order, a, c) < 0
  {
    CompareAntisymmetric(field, a, b);
    LeTransitive(field, order, a, b, c);
    if Directed(field, order, a, c) == 0 {
      TieSubstitutes(field, a, c, b);
      CompareAntisymmetric(field, c, b);
    }
  }

  predicate Sorted(r: seq<Consulta>, field: SortField, order: SortOrder)
  {
    forall i, j :: 0 <= i < j < |r| ==> Le(field, order, r[i], r[j])
  }

  /** Insert `x` after every element that does not come strictly after it. */
  function Insert(x: Consulta, t: seq<Consulta>, field: SortField, order: SortOrder): (r: seq<Consulta>)
    ensures |r| == |t| + 1
  {
    if t == [] then [x]
    else if Directed(field, order, x, t[0]) < 0 then [x] + t
    else [t[0]] + Insert(x, t[1..], field, order)
  }

  /** `Array.prototype.sort` with the page's comparator. That sort is stable, so its
      result is the one a stable insertion sort produces. */
  function SortHistorico(s: seq<Consulta>, field: SortField, order: SortOrder): (r: seq<Consulta>)
    ensures |r| == |s|
  {
    if s == [] then [] else Insert(s[|s| - 1], SortHistorico(s[..|s| - 1], field, order), field, order)
  }

  lemma {:induction false} InsertPermutes(x: Consulta, t: seq<Consulta>, field: SortField, order: SortOrder)
    ensures multiset(Insert(x, t, field, order)) == multiset(t) + multiset{x}
  {
    if t != [] && Directed(field, order, x, t[0]) >= 0 {
      InsertPermutes(x, t[1..], field, order);
      assert t == [t[0]] + t[1..];
    }
  }

  /** A sorted list stays sorted with an element in front that comes before each of its elements. */
  lemma ConsSorted(y: Consulta, r: seq<Consulta>, field: SortField, order: SortOrder)
    requires Sorted(r, field, order)
    requires forall k :: 0 <= k < |r| ==> Le(field, order, y, r[k])
    ensures Sorted([y] + r, field, order)
  {
    var c := [y] + r;
    forall i, j | 0 <= i < j < |c| ensures Le(field, order, c[i], c[j]) {
      if i == 0 {
        assert c[j] == r[j - 1];
      } else {
        assert c[i] == r[i - 1] && c[j] == r[j - 1];
      }
    }
  }

  lemma {:induction false} InsertSorted(x: Consulta, t: seq<Consulta>, field: SortField, order: SortOrder)
    requires Sorted(t, field, order)
    ensures Sorted(Insert(x, t, field, order), field, order)
  {
    if t == [] {
    } else if Directed(field, order, x, t[0]) < 0 {
      forall k | 0 <= k < |t| ensures Le(field, order, x, t[k]) {
        if k > 0 { LeTransitive(field, order, x, t[0], t[k]); }
      }
      ConsSorted(x, t, field, order);
    } else {
      var rest := Insert(x, t[1..], field, order);
      InsertSorted(x, t[1..], field, order);
      forall k | 0 <= k < |rest| ensures Le(field, order, t[0], rest[k]) {
        InsertBefore(x, t, field, order, k);
      }
      ConsSorted(t[0], rest, field, order);
    }
  }

  /** Every element of the insertion into the tail of `t` is one `t[0]` does not come after. */
  lemma InsertBefore(x: Consulta, t: seq<Consulta>, field: SortField, order: SortOrder, k: nat)
    requires Sorted(t, field, order) && t != [] && Directed(field, order, x, t[0]) >= 0
    requires k < |Insert(x, t[1..], field, order)|
    ensures Le(field, order, t[0], Insert(x, t[1..], field, order)[k])
  {
    var rest := Insert(x, t[1..], field, order);
    InsertPermutes(x, t[1..], field, order);
    var y := rest[k];
    assert y in multiset(rest);
    if y == x {
      CompareAntisymmetric(field, x, t[0]);
    } else {
      assert y in t[1..];
      var m :| 0 <= m < |t[1..]| && t[1..][m] == y;
      assert t[m + 1] == y;
    }
  }

  /** The sorted list is a permutation of the filtered one. */
  lemma {:induction false} SortPermutes(s: seq<Consulta>, field: SortField, order: SortOrder)
    ensures multiset(SortHistorico(s, field, order)) == multiset(s)
  {
    if s != [] {
      var init := s[..|s| - 1];
      SortPermutes(init, field, order);
      InsertPermutes(s[|s| - 1], SortHistorico(init, field, order), field, order);
      assert s == init + [s[|s| - 1]];
    }
  }

  lemma {:induction false} SortSorted(s: seq<Consulta>, field: SortField, order: SortOrder)
    ensures Sorted(SortHistorico(s, field, order), field, order)
  {
    if s != [] {
      SortSorted(s[..|s| - 1], field, order);
      InsertSorted(s[|s| - 1], SortHistorico(s[..|s| - 1], field, order), field, order);
    }
  }

  /** Ascending order: the key never decreases (date timestamp, rating with a missing
      one counted as 0, or the type's text order); descending order: it never increases. */
  lemma SortOrdersKeys(s: seq<Consulta>, field: SortField, order: SortOrder, i: nat, j: nat)
    requires i < j < |SortHistorico(s, field, order)|
    ensures var r := SortHistorico(s, field, order);
            if order == Asc then Compare(field, r[i], r[j]) <= 0 else Compare(field, r[i], r[j]) >= 0
    ensures var r := SortHistorico(s, field, order);
            field == ByDate ==> if order == Asc then r[i].date <= r[j].date else r[i].date >= r[j].date
    ensures var r := SortHistorico(s, field, order);
            field == ByRating ==> if order == Asc then RatingOf(r[i]) <= RatingOf(r[j]) else RatingOf(r[i]) >= RatingOf(r[j])
  {
    SortSorted(s, field, order);
  }

  /** The records of `s` that tie with `k` under the field's comparator, in order of `s`. */
  function TiesWith(s: seq<Consulta>, field: SortField, k: Consulta): seq<Consulta>
  {
    if s == [] then []
    else if Compare(field, s[0], k) == 0 then [s[0]] + TiesWith(s[1..], field, k)
    else TiesWith(s[1..], field, k)
  }

  lemma {:induction false} TiesWithAppend(a: seq<Consulta>, b: seq<Consulta>, field: SortField, k: Consulta)
    ensures TiesWith(a + b, field, k) == TiesWith(a, field, k) + TiesWith(b, field, k)
  {
    if a == [] {
      assert a + b == b;
    } else {
      assert (a + b)[1..] == a[1..] + b;
      TiesWithAppend(a[1..], b, field, k);
    }
  }

  lemma {:induction false} NoTies(t: seq<Consulta>, field: SortField, k: Consulta)
    requires forall j :: 0 <= j < |t| ==> Compare(field, t[j], k) != 0
    ensures TiesWith(t, field, k) == []
  {
    if t != [] {
      NoTies(t[1..], field, k);
    }
  }

  lemma {:induction false} InsertKeepsTies(x: Consulta, t: seq<Consulta>, field: SortField, order: SortOrder, k: Consulta)
    requires Sorted(t, field, order)
    ensures TiesWith(Insert(x, t, field, order), field, k) ==
            TiesWith(t, field, k) + (if Compare(field, x, k) == 0 then [x] else [])
  {
    if t == [] {
    } else if Directed(field, order, x, t[0]) < 0 {
      if Compare(field, x, k) == 0 {
        forall j | 0 <= j < |t| ensures Compare(field, t[j], k) != 0 {
          if j > 0 {
            LtLeTransitive(field, order, x, t[0], t[j]);
          }
          if Compare(field, t[j], k) == 0 {
            TieSubstitutes(field, x, k, t[j]);
            CompareAntisymmetric(field, k, t[j]);
          }
        }
        NoTies(t, field, k);
      }
      assert ([x] + t)[1..] == t;
    } else {
      InsertKeepsTies(x, t[1..], field, order, k);
      assert ([t[0]] + Insert(x, t[1..], field, order))[1..] == Insert(x, t[1..], field, order);
    }
  }

  /** Stability, in both directions (`desc` negates the comparator rather than reversing
      the list): records that tie keep the order they had in the filtered list. */
  lemma {:induction false} SortStable(s: seq<Consulta>, field: SortField, order: SortOrder, k: Consulta)
    ensures TiesWith(SortHistorico(s, field, order), field, k) == TiesWith(s, field, k)
  {
    if s != [] {
      var init, last := s[..|s| - 1], s[|s| - 1];
      var tail := if Compare(field, last, k) == 0 then [last] else [];
      var sorted := SortHistorico(init, field, order);
      assert SortHistorico(s, field, order) == Insert(last, sorted, field, order);
      assert TiesWith(Insert(last, sorted, field, order), field, k) == TiesWith(init, field, k) + tail by {
        SortStable(init, field, order, k);
        SortSorted(init, field, order);
        InsertKeepsTies(last, sorted, field, order, k);
      }
      assert TiesWith(s, field, k) == TiesWith(init, field, k) + tail by {
        assert s == init + [last];
        TiesWithAppend(init, [last], field, k);
        assert [last][1..] == [];
      }
    }
  }

  /** The records of `s` in the opposite order. */
  function Reverse(s: seq<Consulta>): (r: seq<Consulta>)
    ensures |r| == |s| && forall i :: 0 <= i < |s| ==> r[i] == s[|s| - 1 - i]
    ensures multiset(r) == multiset(s)
  {
    if s == [] then []
    else
      assert s == [s[0]] + s[1..];
      Reverse(s[1..]) + [s[0]]
  }

  /** No two different records of `s` tie under the field's comparator. */
  predicate Untied(s: seq<Consulta>, field: SortField)
  {
    forall a, b :: a in s && b in s && a != b ==> Compare(field, a, b) != 0
  }

  /** An ascending list read backwards is a descending list. */
  lemma ReverseAscIsDesc(a: seq<Consulta>, field: SortField)
    requires Sorted(a, field, Asc)
    ensures Sorted(Reverse(a), field, Desc)
  {
    var r := Reverse(a);
    forall i, j | 0 <= i < j < |r| ensures Le(field, Desc, r[i], r[j]) {
      assert Le(field, Asc, a[|a| - 1 - j], a[|a| - 1 - i]);
      CompareAntisymmetric(field, r[i], r[j]);
    }
  }

  /** Two sorted orderings of the same untied records start with the same record. */
  lemma SortedSameHead(x: seq<Consulta>, y: seq<Consulta>, field: SortField, order: SortOrder)
    requires x != [] && y != [] && multiset(x) == multiset(y) && Untied(x, field)
    requires Sorted(x, field, order) && Sorted(y, field, order)
    ensures x[0] == y[0]
  {
    assert x[0] in multiset(y) && y[0] in multiset(x);
    if x[0] != y[0] {
      var k :| 0 <= k < |x| && x[k] == y[0];
      var m :| 0 <= m < |y| && y[m] == x[0];
      assert Le(field, order, x[0], x[k]) && Le(field, order, y[0], y[m]);
      CompareAntisymmetric(field, x[0], y[0]);
    }
  }

  /** Dropping the first record keeps a list sorted and untied, and takes one copy of
      that record out of its multiset. */
  lemma TailKeeps(x: seq<Consulta>, field: SortField, order: SortOrder)
    requires x != []
    ensures Sorted(x, field, order) ==> Sorted(x[1..], field, order)
    ensures Untied(x, field) ==> Untied(x[1..], field)
    ensures multiset(x[1..]) == multiset(x) - multiset{x[0]}
  {
    assert x == [x[0]] + x[1..];
    assert forall a :: a in x[1..] ==> a in x;
  }

  /** Without ties there is only one ordering of a multiset of records. */
  lemma {:induction false} SortedUnique(x: seq<Consulta>, y: seq<Consulta>, field: SortField, order: SortOrder)
    requires multiset(x) == multiset(y) && Untied(x, field)
    requires Sorted(x, field, order) && Sorted(y, field, order)
    ensures x == y
    decreases |x|
  {
    assert |x| == |y| by {
      assert |x| == |multiset(x)| && |y| == |multiset(y)|;
    }
    if x != [] {
      assert x[0] == y[0] by {
        SortedSameHead(x, y, field, order);
      }
      assert && multiset(x[1..]) == multiset(y[1..]) && Untied(x[1..], field)
             && Sorted(x[1..], field, order) && Sorted(y[1..], field, order) by {
        TailKeeps(x, field, order);
        TailKeeps(y, field, order);
      }
      SortedUnique(x[1..], y[1..], field, order);
      assert x == [x[0]] + x[1..] && y == [y[0]] + y[1..];
    }
  }

  /** Without ties, sorting in descending order gives exactly the ascending result
      reversed (with ties it does not: tied records keep their input order both ways). */
  lemma SortDescReversesAsc(s: seq<Consulta>, field: SortField)
    requires Untied(s, field)
    ensures SortHistorico(s, field, Desc) == Reverse(SortHistorico(s, field, Asc))
  {
    var up, down := SortHistorico(s, field, Asc), SortHistorico(s, field, Desc);
    SortPermutes(s, field, Asc);
    SortPermutes(s, field, Desc);
    SortSorted(s, field, Asc);
    SortSorted(s, field, Desc);
    ReverseAscIsDesc(up, field);
    assert forall a :: a in down <==> a in s by {
      forall a ensures a in down <==> a in s {
        assert a in down <==> a in multiset(down);
      }
    }
    SortedUnique(down, Reverse(up), field, Desc);
  }

  /** `filteredHistorico`: filter, then sort. */
  function View(s: seq<Consulta>, crit: Criteria, field: SortField, order: SortOrder, cal: Calendar): seq<Consulta>
  {
    SortHistorico(Select(s, crit, cal), field, order)
  }

  // ---------------------------------------------------------------------------
  // Statistics

  /** The page's `stats`; `avgRating` is a real number here. */
  datatype Stats = Stats(total: nat, realizadas: nat, canceladas: nat, avgRating: real, totalSpent: int)

  function CountStatus(s: seq<Consulta>, status: string): (n: nat)
    ensures n <= |s|
  {
    if s == [] then 0 else (if s[0].status == status then 1 else 0) + CountStatus(s[1..], status)
  }

  lemma {:induction false} CountsWithinTotal(s: seq<Consulta>)
    ensures CountStatus(s, "realizada") + CountStatus(s, "cancelada") <= |s|
  {
    if s != [] {
      CountsWithinTotal(s[1..]);
    }
  }

  /** `.filter(c => c.feedback?.rating)`. */
  function Rated(s: seq<Consulta>): (r: seq<Consulta>)
    ensures forall x :: x in r <==> x in s && RatingOf(x) != 0
    ensures SubsequenceOf(r, s)
  {
    if s == [] then []
    else if RatingOf(s[0]) != 0 then
      var r := [s[0]] + Rated(s[1..]);
      assert r[0] == s[0] && r[1..] == Rated(s[1..]);
      assert s == [s[0]] + s[1..];
      r
    else
      assert s == [s[0]] + s[1..];
      Rated(s[1..])
  }

  /** `.reduce((acc, c, _, arr) => acc + (c.feedback?.rating || 0) / arr.length, acc)`
      over the remaining elements `rest` of an array of length `n`. */
  function MeanStep(rest: seq<Consulta>, n: nat, acc: real): real
    requires n > 0 || rest == []
  {
    if rest == [] then acc else MeanStep(rest[1..], n, acc + (RatingOf(rest[0]) as real) / (n as real))
  }

  function SumRatings(s: seq<Consulta>): int
  {
    if s == [] then 0 else RatingOf(s[0]) + SumRatings(s[1..])
  }

  /** `.filter(c => c.status === "realizada" && c.cost).reduce((acc, c) => acc + (c.cost || 0), 0)`. */
  function Spent(s: seq<Consulta>): int
  {
    if s == [] then 0
    else (if s[0].status == "realizada" && s[0].cost != 0 then s[0].cost else 0) + Spent(s[1..])
  }

  function ComputeStats(s: seq<Consulta>): (r: Stats)
    ensures r.total == |s| && r.realizadas + r.canceladas <= r.total
  {
    CountsWithinTotal(s);
    var rated := Rated(s);
    Stats(
      total := |s|,
      realizadas := CountStatus(s, "realizada"),
      canceladas := CountStatus(s, "cancelada"),
      avgRating := MeanStep(rated, |rated|, 0.0),
      totalSpent := Spent(s))
  }

  lemma SharesAdd(a: real, b: real, n: real)
    requires n > 0.0
    ensures a / n + b / n == (a + b) / n
  {
  }

  lemma {:induction false} MeanStepSum(rest: seq<Consulta>, n: nat, acc: real)
    requires n > 0
    ensures MeanStep(rest, n, acc) == acc + (SumRatings(rest) as real) / (n as real)
  {
    if rest != [] {
      var first := RatingOf(rest[0]) as real;
      var others := SumRatings(rest[1..]) as real;
      MeanStepSum(rest[1..], n, acc + first / (n as real));
      SharesAdd(first, others, n as real);
      assert SumRatings(rest) as real == first + others;
    }
  }

  /** `avgRating` is 0 when no record has a non-zero rating, and otherwise the mean of
      the ratings of the records that have one. */
  lemma AvgRatingIsMean(s: seq<Consulta>)
    ensures var rated := Rated(s);
            ComputeStats(s).avgRating ==
              if rated == [] then 0.0 else (SumRatings(rated) as real) / (|rated| as real)
  {
    var rated := Rated(s);
    if rated != [] {
      MeanStepSum(rated, |rated|, 0.0);
    }
  }

  lemma {:induction false} SumRatingsBounds(s: seq<Consulta>, lo: int, hi: int)
    requires forall i :: 0 <= i < |s| ==> lo <= RatingOf(s[i]) <= hi
    ensures lo * |s| <= SumRatings(s) <= hi * |s|
  {
    if s != [] {
      SumRatingsBounds(s[1..], lo, hi);
    }
  }

  /** With every rating between 1 and 5, a non-zero average lies between 1 and 5. */
  lemma AvgRatingBounds(s: seq<Consulta>)
    requires forall c :: c in s ==> 0 <= RatingOf(c) <= 5
    ensures Rated(s) != [] ==> 1.0 <= ComputeStats(s).avgRating <= 5.0
    ensures Rated(s) == [] ==> ComputeStats(s).avgRating == 0.0
  {
    var rated := Rated(s);
    AvgRatingIsMean(s);
    assert forall i :: 0 <= i < |rated| ==> rated[i] in rated;
    SumRatingsBounds(rated, 1, 5);
    if rated != [] {
      MeanWithin(SumRatings(rated), |rated|, 1, 5);
    }
  }

  lemma MeanWithin(sum: int, n: nat, lo: int, hi: int)
    requires n > 0 && lo * n <= sum <= hi * n
    ensures lo as real <= (sum as real) / (n as real) <= hi as real
  {
    var m := (sum as real) / (n as real);
    assert m * (n as real) == sum as real;
    assert (lo as real) * (n as real) <= m * (n as real);
    assert m * (n as real) <= (hi as real) * (n as real);
  }

  function RealizadaCost(s: seq<Consulta>): int
  {
    if s == [] then 0 else (if s[0].status == "realizada" then s[0].cost else 0) + RealizadaCost(s[1..])
  }

  /** `totalSpent` is the sum of `cost` over the "realizada" records. */
  lemma {:induction false} TotalSpentIsRealizadaCost(s: seq<Consulta>)
    ensures ComputeStats(s).totalSpent == RealizadaCost(s)
  {
    if s != [] {
      TotalSpentIsRealizadaCost(s[1..]);
    }
  }

  /** Every normalised record costs 0, so a freshly loaded list has spent nothing. */
  lemma {:induction false} NormalisedSpendsNothing(xs: seq<ConsultaOutput>, parseDate: string -> int)
    ensures ComputeStats(NormaliseAll(xs, parseDate)).totalSpent == 0
  {
    if xs != [] {
      NormalisedSpendsNothing(xs[1..], parseDate);
      var r := NormaliseAll(xs, parseDate);
      assert r[1..] == NormaliseAll(xs[1..], parseDate);
    }
  }

  lemma StatsCounts(s: seq<Consulta>)
    ensures ComputeStats(s).total == |s|
    ensures ComputeStats(s).realizadas + ComputeStats(s).canceladas <= ComputeStats(s).total
  {
    CountsWithinTotal(s);
  }

  // ---------------------------------------------------------------------------
  // Feedback

  /** `prev.map(c => matches(c) ? { ...c, feedback: fb } : c)`. */
  function SetFeedbackWhere(s: seq<Consulta>, matches: Consulta -> bool, fb: Feedback): seq<Consulta>
  {
    seq(|s|, i requires 0 <= i < |s| => if matches(s[i]) then s[i].(feedback := Some(fb)) else s[i])
  }

  lemma SetFeedbackEffect(s: seq<Consulta>, matches: Consulta -> bool, fb: Feedback)
    ensures var r := SetFeedbackWhere(s, matches, fb);
            && |r| == |s|
            && (forall i :: 0 <= i < |s| && matches(s[i]) ==> r[i] == s[i].(feedback := Some(fb)))
            && (forall i :: 0 <= i < |s| && !matches(s[i]) ==> r[i] == s[i])
  {
  }

  /** `saveFeedback` matches on the id; `handleAddFeedback` on the (instant, time) pair. */
  function ById(id: string): Consulta -> bool
  {
    (c: Consulta) => c.id == id
  }

  function BySlot(date: int, time: string): Consulta -> bool
  {
    (c: Consulta) => c.date == date && c.time == time
  }

  /** A matching predicate that only looks at fields the feedback does not touch. */
  ghost predicate IgnoresFeedback(matches: Consulta -> bool)
  {
    forall c: Consulta, f: Option<Feedback> :: matches(c.(feedback := f)) == matches(c)
  }

  lemma SetFeedbackIdempotent(s: seq<Consulta>, matches: Consulta -> bool, fb: Feedback)
    requires IgnoresFeedback(matches)
    ensures SetFeedbackWhere(SetFeedbackWhere(s, matches, fb), matches, fb) == SetFeedbackWhere(s, matches, fb)
  {
    var r := SetFeedbackWhere(s, matches, fb);
    var rr := SetFeedbackWhere(r, matches, fb);
    forall i | 0 <= i < |s| ensures rr[i] == r[i] {
      assert matches(r[i]) == matches(s[i]);
    }
  }

  lemma MatchersIgnoreFeedback(id: string, date: int, time: string)
    ensures IgnoresFeedback(ById(id)) && IgnoresFeedback(BySlot(date, time))
  {
  }

  /** The feedback `saveFeedback` stores: an empty comment is stored as absent. */
  function SavedFeedback(rating: int, comment: string): (fb: Feedback)
    ensures fb.rating == rating && (fb.comment.None? <==> comment == "")
    ensures fb.comment.Some? ==> fb.comment.value == comment
  {
    Feedback(rating, if comment == "" then None else Some(comment))
  }

  /** The list after `saveFeedback`: unchanged without a selection or with rating 0. */
  function SaveFeedbackTo(s: seq<Consulta>, selected: Option<Consulta>, rating: int, comment: string): (r: seq<Consulta>)
    ensures |r| == |s|
    ensures selected.None? || rating == 0 ==> r == s
  {
    if selected.None? || rating == 0 then s
    else SetFeedbackWhere(s, ById(selected.value.id), SavedFeedback(rating, comment))
  }

  lemma SaveFeedbackSpec(s: seq<Consulta>, selected: Option<Consulta>, rating: int, comment: string)
    ensures var r := SaveFeedbackTo(s, selected, rating, comment);
            && |r| == |s|
            && (selected.None? || rating == 0 ==> r == s)
            && (selected.Some? && rating != 0 ==>
                  forall i :: 0 <= i < |s| ==>
                    r[i] == if s[i].id == selected.value.id
                            then s[i].(feedback := Some(SavedFeedback(rating, comment)))
                            else s[i])
    ensures SaveFeedbackTo(SaveFeedbackTo(s, selected, rating, comment), selected, rating, comment)
            == SaveFeedbackTo(s, selected, rating, comment)
  {
    if selected.Some? && rating != 0 {
      MatchersIgnoreFeedback(selected.value.id, 0, "");
      SetFeedbackIdempotent(s, ById(selected.value.id), SavedFeedback(rating, comment));
    }
  }

  /** What `openFeedbackModal` and the dialog's cancel button seed the editor with. */
  function SeedRating(c: Consulta): (r: int)
    ensures c.feedback.None? ==> r == 0
    ensures c.feedback.Some? ==> r == c.feedback.value.rating
  {
    RatingOf(c)
  }

  function SeedComment(c: Consulta): (r: string)
    ensures c.feedback.None? || c.feedback.value.comment.None? ==> r == ""
    ensures c.feedback.Some? && c.feedback.value.comment.Some? ==> r == c.feedback.value.comment.value
  {
    if c.feedback.Some? then Or(c.feedback.value.comment, "") else ""
  }

  // ---------------------------------------------------------------------------
  // CSV export

  const CsvHeader: seq<string> := ["Data", "Horário", "Profissional", "Especialidade", "Tipo", "Status", "Avaliação", "Valor"]

  lemma NumeralIsNotNA(n: int)
    ensures IntToString(n) != "N/A"
  {
    if n >= 0 {
      assert IsDigit(IntToString(n)[0]);
    } else {
      assert IntToString(n)[0] == '-';
    }
  }

  function RatingCell(c: Consulta): string
  {
    if RatingOf(c) != 0 then IntToString(RatingOf(c)) else "N/A"
  }

  function CostCell(c: Consulta): string
  {
    if c.cost != 0 then "R$ " + IntToString(c.cost) else "N/A"
  }

  function CsvRow(c: Consulta, cal: Calendar): (r: seq<string>)
    ensures |r| == |CsvHeader|
  {
    [cal.shortDate(c.date), c.time, c.name, c.specialty, c.serviceType, c.status, RatingCell(c), CostCell(c)]
  }

  /** The rows of the exported file: the header, then one row per record of the view. */
  function CsvRows(view: seq<Consulta>, cal: Calendar): (rows: seq<seq<string>>)
    ensures |rows| == |view| + 1 && rows[0] == CsvHeader
    ensures forall i :: 0 <= i < |rows| ==> |rows[i]| == 8
    ensures forall i :: 0 <= i < |view| ==>
              && rows[i + 1][0] == cal.shortDate(view[i].date)
              && rows[i + 1][1..6] == [view[i].time, view[i].name, view[i].specialty, view[i].serviceType, view[i].status]
              && (rows[i + 1][6] == "N/A" <==> RatingOf(view[i]) == 0)
              && (RatingOf(view[i]) != 0 ==> rows[i + 1][6] == IntToString(RatingOf(view[i])))
              && (rows[i + 1][7] == "N/A" <==> view[i].cost == 0)
              && (view[i].cost != 0 ==> rows[i + 1][7] == "R$ " + IntToString(view[i].cost))
  {
    forall c: Consulta ensures RatingCell(c) == "N/A" <==> RatingOf(c) == 0 {
      NumeralIsNotNA(RatingOf(c));
    }
    [CsvHeader] + seq(|view|, i requires 0 <= i < |view| => CsvRow(view[i], cal))
  }

  /** `parts.join(sep)`. */
  function Join(parts: seq<string>, sep: string): string
  {
    if parts == [] then "" else if |parts| == 1 then parts[0] else parts[0] + sep + Join(parts[1..], sep)
  }

  /** `csvContent`: rows joined by commas, lines by newlines. */
  function CsvContent(view: seq<Consulta>, cal: Calendar): string
  {
    var rows := CsvRows(view, cal);
    Join(seq(|rows|, i requires 0 <= i < |rows| => Join(rows[i], ",")), "\n")
  }

  // ---------------------------------------------------------------------------
  // The page's state

  class HistoryPage {
    var historico: seq<Consulta>
    var selected: Option<Consulta>
    var currentRating: int
    var currentComment: string
    var showFeedbackModal: bool
    var searchTerm: string
    var filterStatus: Option<string>
    var period: string
    var sortBy: SortField
    var sortOrder: SortOrder
    var isExporting: bool
    var loading: bool
    var error: string

    constructor ()
      ensures historico == [] && selected.None? && currentRating == 0 && currentComment == ""
      ensures !showFeedbackModal && searchTerm == "" && filterStatus.None? && period == "all"
      ensures sortBy == ByDate && sortOrder == Desc && !isExporting && !loading && error == ""
    {
      historico := [];
      selected := None;
      currentRating := 0;
      currentComment := "";
      showFeedbackModal := false;
      searchTerm := "";
      filterStatus := None;
      period := "all";
      sortBy := ByDate;
      sortOrder := Desc;
      isExporting := false;
      loading := false;
      error := "";
    }

    /** `filteredHistorico` for the page's current criteria. */
    function Filtered(cal: Calendar): seq<Consulta>
      reads this
    {
      View(historico, Criteria(period, filterStatus, searchTerm), sortBy, sortOrder, cal)
    }

    /** `stats`, over the whole list whatever the filters. */
    function CurrentStats(): Stats
      reads this
    {
      ComputeStats(historico)
    }

    /** `loadHistorico`, with the API's answer as input. */
    method Load(fetched: Result<seq<ConsultaOutput>>, parseDate: string -> int)
      modifies this
      ensures !loading
      ensures fetched.Ok? ==> historico == NormaliseAll(fetched.value, parseDate) && error == ""
      ensures fetched.Err? ==> historico == old(historico)
      ensures fetched.Err? ==>
                error == if fetched.message != "" then fetched.message else "Erro ao carregar histórico de consultas"
      ensures selected == old(selected) && currentRating == old(currentRating) && currentComment == old(currentComment)
      ensures showFeedbackModal == old(showFeedbackModal) && searchTerm == old(searchTerm)
      ensures filterStatus == old(filterStatus) && period == old(period) && sortBy == old(sortBy)
      ensures sortOrder == old(sortOrder) && isExporting == old(isExporting)
    {
      loading := true;
      error := "";
      match fetched {
        case Ok(data) =>
          historico := NormaliseAll(data, parseDate);
        case Err(message) =>
          error := if message != "" then message else "Erro ao carregar histórico de consultas";
      }
      loading := false;
    }

    method SetSearchTerm(term: string)
      modifies this`searchTerm
      ensures searchTerm == term
    {
      searchTerm := term;
    }

    /** The "Realizadas" and "Canceladas" buttons. */
    method ToggleStatusFilter(status: string)
      modifies this`filterStatus
      ensures filterStatus == ToggleStatus(old(filterStatus), status)
    {
      filterStatus := if filterStatus == Some(status) then None else Some(status);
    }

    method OpenFeedbackModal(c: Consulta)
      modifies this`selected, this`currentRating, this`currentComment, this`showFeedbackModal
      ensures selected == Some(c) && showFeedbackModal
      ensures currentRating == SeedRating(c) && currentComment == SeedComment(c)
    {
      selected := Some(c);
      currentRating := if c.feedback.Some? then c.feedback.value.rating else 0;
      currentComment := if c.feedback.Some? && c.feedback.value.comment.Some? then c.feedback.value.comment.value else "";
      showFeedbackModal := true;
    }

    /** A star button of the dialog. */
    method SetRating(star: int)
      modifies this`currentRating
      ensures currentRating == star
    {
      currentRating := star;
    }

    method SetComment(text: string)
      modifies this`currentComment
      ensures currentComment == text
    {
      currentComment := text;
    }

    /** The dialog's cancel button: close it and restore the selected record's feedback. */
    method CancelFeedback()
      modifies this`currentRating, this`currentComment, this`showFeedbackModal
      ensures !showFeedbackModal
      ensures currentRating == (if selected.Some? then SeedRating(selected.value) else 0)
      ensures currentComment == (if selected.Some? then SeedComment(selected.value) else "")
    {
      showFeedbackModal := false;
      currentRating := if selected.Some? then SeedRating(selected.value) else 0;
      currentComment := if selected.Some? then SeedComment(selected.value) else "";
    }

    /** `saveFeedback`: refused without a selection or with no star chosen. */
    method SaveFeedback() returns (saved: bool)
      modifies this`historico, this`currentRating, this`currentComment, this`showFeedbackModal
      ensures saved <==> old(selected).Some? && old(currentRating) != 0
      ensures historico == SaveFeedbackTo(old(historico), selected, old(currentRating), old(currentComment))
      ensures saved ==> !showFeedbackModal && currentRating == 0 && currentComment == ""
      ensures !saved ==> showFeedbackModal == old(showFeedbackModal) && currentRating == old(currentRating)
      ensures !saved ==> currentComment == old(currentComment)
    {
      if selected.None? || currentRating == 0 {
        return false;
      }
      historico := SetFeedbackWhere(historico, ById(selected.value.id), SavedFeedback(currentRating, currentComment));
      showFeedbackModal := false;
      currentRating := 0;
      currentComment := "";
      saved := true;
    }

    /** `handleAddFeedback`: matches records by (instant, time), accepts any rating. */
    method AddFeedback(c: Consulta, rating: int, comment: Option<string>)
      modifies this`historico
      ensures historico == SetFeedbackWhere(old(historico), BySlot(c.date, c.time), Feedback(rating, comment))
    {
      historico := SetFeedbackWhere(historico, BySlot(c.date, c.time), Feedback(rating, comment));
    }

    /** `exportHistory`: the CSV is built only when the export endpoint answered ok. */
    method ExportHistory(responseOk: bool, cal: Calendar) returns (csv: Option<string>)
      modifies this`isExporting
      ensures !isExporting
      ensures responseOk ==> csv == Some(CsvContent(Filtered(cal), cal))
      ensures !responseOk ==> csv.None?
    {
      isExporting := true;
      if responseOk {
        csv := Some(CsvContent(View(historico, Criteria(period, filterStatus, searchTerm), sortBy, sortOrder, cal), cal));
      } else {
        csv := None;
      }
      isExporting := false;
    }
  }
}
