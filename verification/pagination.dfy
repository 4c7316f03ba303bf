/**
 Cursor pagination (internal/pkg/pagination/pagination.go): the cursor codec and the
 walk over pages. Instants are nanoseconds since the Unix epoch, negative before it.
 */
module Pagination {
  import opened Wrappers
  import opened ByteOrder
  import opened Decimal
  import Base64Url

  datatype Cursor = Cursor(createdAt: int, id: string)

  datatype Error = Empty | NotBase64 | BadFormat | BadTimestamp

  datatype Request = Request(after: Option<Cursor>, limit: int)

  datatype Page<T> = Page(items: seq<T>, nextCursor: string, hasMore: bool)

  const DEFAULT_LIMIT: int := 20
  const MAX_LIMIT: int := 100

  /** Time.UnixMicro: the microsecond containing the instant, before the epoch too. */
  function Micros(instant: int): int {
    instant / 1000
  }

  function Encode(c: Cursor): string
    requires Base64Url.IsBytes(c.id)
  {
    Base64Url.Encode(RawOf(c))
  }

  function RawOf(c: Cursor): (raw: string)
    requires Base64Url.IsBytes(c.id)
    ensures Base64Url.IsBytes(raw)
  {
    var micros := OfInt(Wrap64(Micros(c.createdAt)));
    NumeralIsBytes(Wrap64(Micros(c.createdAt)));
    micros + "|" + c.id
  }

  lemma NumeralIsBytes(i: int)
    ensures Base64Url.IsBytes(OfInt(i)) && '|' !in OfInt(i)
  {
    var digits := OfNat(if i < 0 then -i else i);
    assert forall k :: 0 <= k < |digits| ==> IsDigit(digits[k]);
  }

  /** strings.Cut at the first bar. */
  function Cut(s: string): Option<(string, string)> {
    if s == "" then None
    else if s[0] == '|' then Some(("", s[1..]))
    else
      match Cut(s[1..])
      case None => None
      case Some((before, after)) => Some(([s[0]] + before, after))
  }

  function Decode(encoded: string): Result<Cursor, Error> {
    if encoded == "" then Err(Empty)
    else
      match Base64Url.Decode(encoded)
      case None => Err(NotBase64)
      case Some(raw) =>
        match Cut(raw)
        case None => Err(BadFormat)
        case Some((micros, id)) =>
          if id == "" then Err(BadFormat)
          else
            match ParseInt64(micros)
            case None => Err(BadTimestamp)
            case Some(parsed) => Ok(Cursor(1000 * parsed, id))
  }

  // ---- The cursor round trip ----

  lemma {:induction false} CutAtFirstBar(before: string, after: string)
    requires '|' !in before
    ensures Cut(before + "|" + after) == Some((before, after))
  {
    var s := before + "|" + after;
    if before == "" {
      assert s[1..] == after;
    } else {
      assert s[1..] == before[1..] + "|" + after;
      CutAtFirstBar(before[1..], after);
      assert before == [before[0]] + before[1..];
    }
  }

  lemma {:induction false} CutIs(s: string)
    ensures Cut(s).None? <==> '|' !in s
    ensures Cut(s).Some? ==> '|' !in Cut(s).value.0 && s == Cut(s).value.0 + "|" + Cut(s).value.1
  {
    if s != "" && s[0] != '|' {
      CutIs(s[1..]);
      assert s == [s[0]] + s[1..];
    }
  }

  /**
   A text is a cursor exactly when it is the base64 form of a 64-bit numeral, a bar and
   an identifier; the first thing wrong with any other decides its error.
   */
  lemma DecodeIs(encoded: string, micros: string, id: string)
    requires '|' !in micros
    ensures encoded == "" <==> Decode(encoded) == Err(Empty)
    ensures encoded != "" ==> (Base64Url.Decode(encoded).None? <==> Decode(encoded) == Err(NotBase64))
    ensures encoded != "" && Base64Url.Decode(encoded).Some? && '|' !in Base64Url.Decode(encoded).value ==>
              Decode(encoded) == Err(BadFormat)
    ensures encoded != "" && Base64Url.Decode(encoded) == Some(micros + "|" + id) ==>
              Decode(encoded) == if id == "" then Err(BadFormat)
                                 else if ParseInt64(micros).None? then Err(BadTimestamp)
                                 else Ok(Cursor(1000 * ParseInt64(micros).value, id))
  {
    CutAtFirstBar(micros, id);
    if encoded != "" && Base64Url.Decode(encoded).Some? {
      CutIs(Base64Url.Decode(encoded).value);
    }
    hide Base64Url.Decode;
    hide ParseInt64;
  }

  /** What decoding an encoded cursor gives: the identifier as it was, bars included. */
  lemma DecodeOfEncode(c: Cursor)
    requires Base64Url.IsBytes(c.id)
    ensures Decode(Encode(c)) ==
            if c.id == "" then Err(BadFormat) else Ok(Cursor(1000 * Wrap64(Micros(c.createdAt)), c.id))
    ensures Encode(c) != ""
  {
    var micros := Wrap64(Micros(c.createdAt));
    NumeralIsBytes(micros);
    CutAtFirstBar(OfInt(micros), c.id);
    ParseInt64RoundTrip(micros);
    Base64Url.DecodeUndoesEncode(RawOf(c));
    assert Base64Url.Decode("") == Some("");
    assert RawOf(c) != "";
  }

  /**
   The cursor round trip: for a non-empty identifier, the decoded cursor is the
   original floored to the microsecond exactly when that microsecond fits 64 bits,
   which is for every instant within some 292000 years of the epoch.
   */
  lemma CursorRoundTrip(c: Cursor)
    requires Base64Url.IsBytes(c.id) && c.id != ""
    ensures Decode(Encode(c)) == Ok(Cursor(1000 * Micros(c.createdAt), c.id)) <==> IsInt64(Micros(c.createdAt))
    ensures 1000 * Micros(c.createdAt) <= c.createdAt < 1000 * Micros(c.createdAt) + 1000
  {
    DecodeOfEncode(c);
  }

  // ---- Requests and pages ----

  function ClampLimit(limit: int): (r: int)
    ensures 1 <= r <= MAX_LIMIT
    ensures 1 <= limit <= 100 ==> r == limit
    ensures limit <= 0 ==> r == 20
    ensures limit > 100 ==> r == 100
  {
    if limit <= 0 then DEFAULT_LIMIT else if limit > MAX_LIMIT then MAX_LIMIT else limit
  }

  function NewRequest(encoded: string, limit: int): Result<Request, Error> {
    if encoded == "" then Ok(Request(None, ClampLimit(limit)))
    else
      match Decode(encoded)
      case Err(e) => Err(e)
      case Ok(cursor) => Ok(Request(Some(cursor), ClampLimit(limit)))
  }

  /** One row more than the page, to know whether another page follows. */
  function FetchLimit(req: Request): int {
    req.limit + 1
  }

  function NewPage<T>(fetched: seq<T>, req: Request, cursorOf: T -> Cursor): Page<T>
    requires forall i :: 0 <= i < |fetched| ==> Base64Url.IsBytes(cursorOf(fetched[i]).id)
  {
    var hasMore := |fetched| > req.limit;
    var items := if 0 <= req.limit && hasMore then fetched[..req.limit] else fetched;
    Page(items, if hasMore && items != [] then Encode(cursorOf(items[|items| - 1])) else "", hasMore)
  }

  // ---- The page walk ----

  /** The order the rows are listed in: microsecond, then identifier. */
  predicate Before(a: Cursor, b: Cursor) {
    Micros(a.createdAt) < Micros(b.createdAt) || (Micros(a.createdAt) == Micros(b.createdAt) && Less(a.id, b.id))
  }

  /** A list the walk is promised for: strictly ordered, with identifiers and in 64-bit time. */
  ghost predicate Listed<T>(rows: seq<T>, cursorOf: T -> Cursor) {
    && (forall i, j :: 0 <= i < j < |rows| ==> Before(cursorOf(rows[i]), cursorOf(rows[j])))
    && (forall i :: 0 <= i < |rows| ==>
          var c := cursorOf(rows[i]);
          c.id != "" && Base64Url.IsBytes(c.id) && IsInt64(Micros(c.createdAt)))
  }

  /** The rows strictly after a cursor, as the query selects them. */
  function RowsAfter<T>(rows: seq<T>, cursorOf: T -> Cursor, after: Option<Cursor>): seq<T> {
    if rows == [] then []
    else
      (if after.None? || Before(after.value, cursorOf(rows[0])) then [rows[0]] else [])
      + RowsAfter(rows[1..], cursorOf, after)
  }

  function Take<T>(rows: seq<T>, n: int): seq<T> {
    if 0 <= n < |rows| then rows[..n] else rows
  }

  function Fetch<T>(rows: seq<T>, cursorOf: T -> Cursor, req: Request): seq<T> {
    Take(RowsAfter(rows, cursorOf, req.after), FetchLimit(req))
  }

  /** An earlier microsecond comes first, then the smaller identifier; two different rows are always ordered. */
  lemma BeforeIsTotal(a: Cursor, b: Cursor)
    ensures Micros(a.createdAt) < Micros(b.createdAt) ==> Before(a, b) && !Before(b, a)
    ensures Micros(a.createdAt) == Micros(b.createdAt) ==> (Before(a, b) <==> Less(a.id, b.id))
    ensures Before(a, b) || Before(b, a) || (Micros(a.createdAt) == Micros(b.createdAt) && a.id == b.id)
  {
    LessIsTotal(a.id, b.id);
  }

  lemma BeforeIsIrreflexive(a: Cursor)
    ensures !Before(a, a)
  {
    LessIsIrreflexive(a.id);
  }

  lemma BeforeIsTransitive(a: Cursor, b: Cursor, c: Cursor)
    requires Before(a, b) && Before(b, c)
    ensures Before(a, c)
  {
    if Micros(a.createdAt) == Micros(b.createdAt) == Micros(c.createdAt) {
      LessIsTransitive(a.id, b.id, c.id);
    }
  }

  lemma {:induction false} AllRows<T>(rows: seq<T>, cursorOf: T -> Cursor)
    ensures RowsAfter(rows, cursorOf, None) == rows
  {
    if rows != [] {
      AllRows(rows[1..], cursorOf);
    }
  }

  /** Selecting after a cursor that has the position of row k - 1 gives exactly the rows from k on. */
  lemma {:induction false} RowsFrom<T>(rows: seq<T>, cursorOf: T -> Cursor, after: Cursor, k: nat)
    requires k <= |rows|
    requires forall i :: 0 <= i < |rows| ==> (Before(after, cursorOf(rows[i])) <==> i >= k)
    ensures RowsAfter(rows, cursorOf, Some(after)) == rows[k..]
  {
    if rows != [] {
      var k' := if k == 0 then 0 else k - 1;
      assert forall i :: 0 <= i < |rows[1..]| ==> rows[1..][i] == rows[i + 1];
      RowsFrom(rows[1..], cursorOf, after, k');
      assert k > 0 ==> rows[1..][k'..] == rows[k..];
    }
  }

  /** The decoded cursor has the position of the encoded one. */
  function Floored(c: Cursor): Cursor {
    Cursor(1000 * Micros(c.createdAt), c.id)
  }

  lemma FlooredKeepsPosition(c: Cursor, other: Cursor)
    ensures Before(Floored(c), other) <==> Before(c, other)
  {
  }

  lemma OnlyLaterRowsFollow<T>(rows: seq<T>, cursorOf: T -> Cursor, k: nat, i: nat)
    requires Listed(rows, cursorOf) && k < |rows| && i < |rows|
    ensures Before(cursorOf(rows[k]), cursorOf(rows[i])) <==> i > k
  {
    hide Before;
    BeforeIsIrreflexive(cursorOf(rows[k]));
    if i < k && Before(cursorOf(rows[k]), cursorOf(rows[i])) {
      BeforeIsTransitive(cursorOf(rows[k]), cursorOf(rows[i]), cursorOf(rows[k]));
    }
  }

  /** The cursor of a listed row separates the rows up to it from those after it. */
  lemma CursorSeparates<T>(rows: seq<T>, cursorOf: T -> Cursor, k: nat)
    requires Listed(rows, cursorOf) && k < |rows|
    ensures var c := cursorOf(rows[k]);
            && Encode(c) != "" && Decode(Encode(c)) == Ok(Floored(c))
            && RowsAfter(rows, cursorOf, Some(Floored(c))) == rows[k + 1..]
  {
    var c := cursorOf(rows[k]);
    CursorRoundTrip(c);
    DecodeOfEncode(c);
    hide Before;
    hide Encode;
    hide Decode;
    hide Wrap64;
    forall i | 0 <= i < |rows| ensures Before(Floored(c), cursorOf(rows[i])) <==> i >= k + 1 {
      FlooredKeepsPosition(c, cursorOf(rows[i]));
      OnlyLaterRowsFollow(rows, cursorOf, k, i);
    }
    hide Listed;
    RowsFrom(rows, cursorOf, Floored(c), k + 1);
  }

  /**
   A walk: the first page is asked for without a cursor, each next one with the
   cursor of the page before it, and the walk goes on exactly while there is more.
   */
  ghost predicate Walk<T>(rows: seq<T>, cursorOf: T -> Cursor, limit: int, pages: seq<Page<T>>)
    requires Listed(rows, cursorOf)
  {
    pages != [] && forall i :: 0 <= i < |pages| ==> WalkStep(rows, cursorOf, limit, pages, i)
  }

  function CursorBefore<T>(pages: seq<Page<T>>, i: nat): string
    requires i <= |pages|
  {
    if i == 0 then "" else pages[i - 1].nextCursor
  }

  ghost predicate WalkStep<T>(rows: seq<T>, cursorOf: T -> Cursor, limit: int, pages: seq<Page<T>>, i: nat)
    requires Listed(rows, cursorOf) && i < |pages|
  {
    && Answers(rows, cursorOf, CursorBefore(pages, i), limit, pages[i])
    && (i < |pages| - 1 ==> pages[i].hasMore)
  }

  /** The page is the one the request for this cursor gets. */
  ghost predicate Answers<T>(rows: seq<T>, cursorOf: T -> Cursor, encoded: string, limit: int, page: Page<T>)
    requires Listed(rows, cursorOf)
  {
    var req := NewRequest(encoded, limit);
    req.Ok? && (forall x :: x in Fetch(rows, cursorOf, req.value) ==> Base64Url.IsBytes(cursorOf(x).id))
    && page == NewPage(Fetch(rows, cursorOf, req.value), req.value, cursorOf)
  }

  /** Where page i of a list ends. */
  function EndOf(n: nat, start: nat, limit: int): (e: nat)
    requires start <= n && limit > 0
    ensures start <= e <= n && e <= start + limit
  {
    if start + limit <= n then start + limit else n
  }

  /** The page asked for after the first k rows. */
  lemma PageFrom<T>(rows: seq<T>, cursorOf: T -> Cursor, encoded: string, limit: int, page: Page<T>, k: nat)
    requires Listed(rows, cursorOf) && Answers(rows, cursorOf, encoded, limit, page) && k <= |rows|
    requires RowsAfter(rows, cursorOf, NewRequest(encoded, limit).value.after) == rows[k..]
    ensures var n := ClampLimit(limit);
            && page.items == rows[k..EndOf(|rows|, k, n)]
            && (page.hasMore <==> k + n < |rows|)
            && (page.hasMore ==> page.nextCursor == Encode(cursorOf(rows[k + n - 1])))
  {
    hide Encode;
    hide Decode;
    hide Listed;
    hide RowsAfter;
    hide Take;
    TakeSplits(rows, k, ClampLimit(limit));
    hide ClampLimit;
  }

  /** One row more than the limit: the page and whether another follows. */
  lemma TakeSplits<T>(rows: seq<T>, k: nat, n: int)
    requires k <= |rows| && n > 0
    ensures var fetched := Take(rows[k..], n + 1);
            if k + n < |rows| then
              |fetched| == n + 1 && fetched[..n] == rows[k..EndOf(|rows|, k, n)] && fetched[n - 1] == rows[k + n - 1]
            else |fetched| <= n && fetched == rows[k..EndOf(|rows|, k, n)]
  {
  }

  /** The page that follows a page ending before row k. */
  lemma RequestFrom<T>(rows: seq<T>, cursorOf: T -> Cursor, limit: int, k: nat)
    requires Listed(rows, cursorOf) && 0 < k <= |rows|
    ensures var encoded := Encode(cursorOf(rows[k - 1]));
            && NewRequest(encoded, limit).Ok?
            && RowsAfter(rows, cursorOf, NewRequest(encoded, limit).value.after) == rows[k..]
  {
    CursorSeparates(rows, cursorOf, k - 1);
    hide Encode;
    hide Decode;
    hide Listed;
    hide RowsAfter;
  }

  lemma FirstRequest<T>(rows: seq<T>, cursorOf: T -> Cursor, limit: int)
    ensures NewRequest("", limit).Ok? && RowsAfter(rows, cursorOf, NewRequest("", limit).value.after) == rows[0..]
  {
    AllRows(rows, cursorOf);
  }

  /** Where page i of a walk starts. */
  function Offset(i: nat, limit: int): nat {
    if i == 0 then 0 else Offset(i - 1, limit) + ClampLimit(limit)
  }

  lemma {:induction false} OffsetIsProduct(i: nat, limit: int)
    ensures Offset(i, limit) == i * ClampLimit(limit)
  {
    if i > 0 {
      OffsetIsProduct(i - 1, limit);
    }
  }

  /** Page i of a walk holds the rows from its offset on. */
  ghost predicate PageHolds<T>(rows: seq<T>, cursorOf: T -> Cursor, limit: int, page: Page<T>, i: nat)
    requires Listed(rows, cursorOf)
  {
    var k, n := Offset(i, limit), ClampLimit(limit);
    && k <= |rows| && (i > 0 ==> k < |rows|)
    && page.items == rows[k..EndOf(|rows|, k, n)]
    && (page.hasMore <==> k + n < |rows|)
    && (page.hasMore ==> page.nextCursor == Encode(cursorOf(rows[k + n - 1])))
  }

  lemma {:induction false} WalkHolds<T>(rows: seq<T>, cursorOf: T -> Cursor, limit: int, pages: seq<Page<T>>, i: nat)
    requires Listed(rows, cursorOf) && Walk(rows, cursorOf, limit, pages) && i < |pages|
    ensures PageHolds(rows, cursorOf, limit, pages[i], i)
  {
    hide Listed;
    hide Encode;
    hide NewRequest;
    hide RowsAfter;
    hide Answers;
    hide ClampLimit;
    assert WalkStep(rows, cursorOf, limit, pages, i);
    if i == 0 {
      hide Walk;
      FirstRequest(rows, cursorOf, limit);
      PageFrom(rows, cursorOf, "", limit, pages[0], 0);
    } else {
      assert WalkStep(rows, cursorOf, limit, pages, i - 1);
      WalkHolds(rows, cursorOf, limit, pages, i - 1);
      hide Walk;
      var k := Offset(i, limit);
      RequestFrom(rows, cursorOf, limit, k);
      PageFrom(rows, cursorOf, pages[i - 1].nextCursor, limit, pages[i], k);
    }
  }

  function Items<T>(pages: seq<Page<T>>): seq<T> {
    if pages == [] then [] else Items(pages[..|pages| - 1]) + pages[|pages| - 1].items
  }

  lemma FrontOfWalk<T>(rows: seq<T>, cursorOf: T -> Cursor, limit: int, pages: seq<Page<T>>)
    requires Listed(rows, cursorOf) && Walk(rows, cursorOf, limit, pages) && |pages| > 1
    ensures Walk(rows, cursorOf, limit, pages[..|pages| - 1]) && pages[|pages| - 2].hasMore
  {
    hide Answers;
    hide Listed;
    var front := pages[..|pages| - 1];
    assert WalkStep(rows, cursorOf, limit, pages, |pages| - 2);
    forall i | 0 <= i < |front| ensures WalkStep(rows, cursorOf, limit, front, i) {
      assert WalkStep(rows, cursorOf, limit, pages, i);
    }
  }

  /** The items of the pages are the rows up to where the last page ends. */
  ghost predicate Gathered<T>(rows: seq<T>, limit: int, pages: seq<Page<T>>)
    requires pages != []
  {
    var k := Offset(|pages| - 1, limit);
    k <= |rows| && Items(pages) == rows[..EndOf(|rows|, k, ClampLimit(limit))]
  }

  lemma FirstGathered<T>(rows: seq<T>, cursorOf: T -> Cursor, limit: int, pages: seq<Page<T>>)
    requires Listed(rows, cursorOf) && |pages| == 1 && PageHolds(rows, cursorOf, limit, pages[0], 0)
    ensures Gathered(rows, limit, pages)
  {
    hide Listed;
    hide Encode;
    assert pages[..0] == [] && Items(pages[..0]) == [];
  }

  lemma NextGathered<T>(rows: seq<T>, cursorOf: T -> Cursor, limit: int, pages: seq<Page<T>>)
    requires Listed(rows, cursorOf) && |pages| > 1
    requires var last := |pages| - 1;
             && Gathered(rows, limit, pages[..last]) && pages[last - 1].hasMore
             && PageHolds(rows, cursorOf, limit, pages[last - 1], last - 1)
             && PageHolds(rows, cursorOf, limit, pages[last], last)
    ensures Gathered(rows, limit, pages)
  {
    hide Listed;
    hide Encode;
    hide ClampLimit;
  }

  lemma {:induction false} ItemsArePrefix<T>(rows: seq<T>, cursorOf: T -> Cursor, limit: int, pages: seq<Page<T>>)
    requires Listed(rows, cursorOf) && Walk(rows, cursorOf, limit, pages)
    ensures Gathered(rows, limit, pages)
  {
    var last := |pages| - 1;
    WalkHolds(rows, cursorOf, limit, pages, last);
    hide Listed;
    hide Gathered;
    hide PageHolds;
    hide WalkStep;
    if last == 0 {
      FirstGathered(rows, cursorOf, limit, pages);
    } else {
      FrontOfWalk(rows, cursorOf, limit, pages);
      hide Walk;
      ItemsArePrefix(rows, cursorOf, limit, pages[..last]);
      WalkHolds(rows, cursorOf, limit, pages, last - 1);
      NextGathered(rows, cursorOf, limit, pages);
    }
  }

  /**
   The page walk: the pages of a finished walk concatenate to exactly the list; every
   page but the last is full and announces more; the last announces none and is
   empty only when the list is.
   */
  lemma WalkGivesTheList<T>(rows: seq<T>, cursorOf: T -> Cursor, limit: int, pages: seq<Page<T>>)
    requires Listed(rows, cursorOf) && Walk(rows, cursorOf, limit, pages) && !pages[|pages| - 1].hasMore
    ensures Items(pages) == rows
    ensures forall i :: 0 <= i < |pages| - 1 ==> |pages[i].items| == ClampLimit(limit) && pages[i].hasMore
    ensures pages[|pages| - 1].items == [] <==> rows == []
  {
    hide Listed;
    hide Gathered;
    hide PageHolds;
    hide Answers;
    ItemsArePrefix(rows, cursorOf, limit, pages);
    WalkHolds(rows, cursorOf, limit, pages, |pages| - 1);
    LastPage(rows, cursorOf, limit, pages);
    forall i | 0 <= i < |pages| - 1 ensures |pages[i].items| == ClampLimit(limit) && pages[i].hasMore {
      assert WalkStep(rows, cursorOf, limit, pages, i);
      WalkHolds(rows, cursorOf, limit, pages, i);
      FullPage(rows, cursorOf, limit, pages[i], i);
      hide Walk;
    }
    hide *;
  }

  lemma FullPage<T>(rows: seq<T>, cursorOf: T -> Cursor, limit: int, page: Page<T>, i: nat)
    requires Listed(rows, cursorOf) && PageHolds(rows, cursorOf, limit, page, i) && page.hasMore
    ensures |page.items| == ClampLimit(limit)
  {
    hide Listed;
    hide Encode;
    hide Offset;
  }

  lemma LastPage<T>(rows: seq<T>, cursorOf: T -> Cursor, limit: int, pages: seq<Page<T>>)
    requires Listed(rows, cursorOf) && pages != [] && Gathered(rows, limit, pages)
    requires PageHolds(rows, cursorOf, limit, pages[|pages| - 1], |pages| - 1) && !pages[|pages| - 1].hasMore
    ensures Items(pages) == rows
    ensures pages[|pages| - 1].items == [] <==> rows == []
  {
    hide Listed;
    hide Encode;
    hide Items;
    hide ClampLimit;
  }

  /** A walk that announces more goes on. */
  lemma WalkGoesOn<T>(rows: seq<T>, cursorOf: T -> Cursor, limit: int, pages: seq<Page<T>>)
    requires Listed(rows, cursorOf) && Walk(rows, cursorOf, limit, pages) && pages[|pages| - 1].hasMore
    ensures exists page :: Walk(rows, cursorOf, limit, pages + [page])
  {
    var last := pages[|pages| - 1];
    hide *;
    WalkHolds(rows, cursorOf, limit, pages, |pages| - 1);
    var k := NextRequestIs(rows, cursorOf, limit, last, |pages| - 1);
    var page := AnswerFor(rows, cursorOf, last.nextCursor, limit, k);
    AppendPage(rows, cursorOf, limit, pages, page);
  }

  lemma NextRequestIs<T>(rows: seq<T>, cursorOf: T -> Cursor, limit: int, page: Page<T>, i: nat) returns (k: nat)
    requires Listed(rows, cursorOf) && PageHolds(rows, cursorOf, limit, page, i) && page.hasMore
    ensures k <= |rows| && NewRequest(page.nextCursor, limit).Ok?
    ensures RowsAfter(rows, cursorOf, NewRequest(page.nextCursor, limit).value.after) == rows[k..]
  {
    hide Listed;
    hide Encode;
    hide NewRequest;
    hide RowsAfter;
    hide ClampLimit;
    k := Offset(i, limit) + ClampLimit(limit);
    RequestFrom(rows, cursorOf, limit, k);
  }

  lemma AppendPage<T>(rows: seq<T>, cursorOf: T -> Cursor, limit: int, pages: seq<Page<T>>, page: Page<T>)
    requires Listed(rows, cursorOf) && Walk(rows, cursorOf, limit, pages) && pages[|pages| - 1].hasMore
    requires Answers(rows, cursorOf, pages[|pages| - 1].nextCursor, limit, page)
    ensures Walk(rows, cursorOf, limit, pages + [page])
  {
    hide Answers;
    hide Listed;
    var all := pages + [page];
    forall i | 0 <= i < |all| ensures WalkStep(rows, cursorOf, limit, all, i) {
      if i < |pages| {
        assert WalkStep(rows, cursorOf, limit, pages, i);
      }
    }
  }

  lemma AnswerFor<T>(rows: seq<T>, cursorOf: T -> Cursor, encoded: string, limit: int, k: nat) returns (page: Page<T>)
    requires Listed(rows, cursorOf) && k <= |rows|
    requires NewRequest(encoded, limit).Ok?
    requires RowsAfter(rows, cursorOf, NewRequest(encoded, limit).value.after) == rows[k..]
    ensures Answers(rows, cursorOf, encoded, limit, page)
  {
    hide NewRequest;
    hide RowsAfter;
    hide Encode;
    var req := NewRequest(encoded, limit).value;
    var fetched := Fetch(rows, cursorOf, req);
    assert forall x :: x in fetched ==> x in rows[k..] && x in rows;
    page := NewPage(fetched, req, cursorOf);
  }

  /** The walk terminates: the pages of any walk, finished or not, start before the end of a non-empty list. */
  lemma WalkIsBounded<T>(rows: seq<T>, cursorOf: T -> Cursor, limit: int, pages: seq<Page<T>>)
    requires Listed(rows, cursorOf) && Walk(rows, cursorOf, limit, pages)
    ensures |pages| == 1 || (|pages| - 1) * ClampLimit(limit) < |rows|
  {
    WalkHolds(rows, cursorOf, limit, pages, |pages| - 1);
    OffsetIsProduct(|pages| - 1, limit);
  }
}
