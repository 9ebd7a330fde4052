/** The parts of the text a migrating variable travels as: numbers, ids and containers (the
    Serialise and Deserialise members of LpId, SsvId and the serialisable containers). The
    printers take the text that follows; the parsers work by skipping to a delimiter, and
    give None where a stream would fail. */
module Wire {
  import opened Base
  import opened Periods

  const DELIM_VAR_SEPARATOR: char := ':'
  const DELIM_LEFT: char := '<'
  const DELIM_RIGHT: char := '>'
  const DELIM_LIST_LEFT: char := '|'
  const DELIM_LIST_RIGHT: char := '@'

  datatype Parsed<+T> = Parsed(value: T, rest: string)

  // ---- numbers ----

  predicate IsDigit(c: char)
  {
    '0' <= c <= '9'
  }

  function Digit(d: nat): (c: char)
    requires d < 10
    ensures IsDigit(c) && DigitValue(c) == d
  {
    '0' + d as char
  }

  function DigitValue(c: char): nat
    requires IsDigit(c)
  {
    (c as int) - ('0' as int)
  }

  function PutNat(n: nat, after: string): (s: string)
    ensures s != "" && IsDigit(s[0])
  {
    if n < 10 then [Digit(n)] + after else PutNat(n / 10, [Digit(n % 10)] + after)
  }

  function ReadDigits(s: string, value: nat): Parsed<nat>
  {
    if s == "" || !IsDigit(s[0]) then Parsed(value, s)
    else ReadDigits(s[1..], 10 * value + DigitValue(s[0]))
  }

  predicate IsSpace(c: char)
  {
    c == ' ' || c == '\t' || c == '\n'
  }

  function SkipSpace(s: string): string
  {
    if s == "" || !IsSpace(s[0]) then s else SkipSpace(s[1..])
  }

  /** Extraction of an unsigned number: as many digits as there are, at least one. */
  function ReadNat(s: string): Option<Parsed<nat>>
  {
    var t := SkipSpace(s);
    if t == "" || !IsDigit(t[0]) then None else Some(ReadDigits(t, 0))
  }

  function PutInt(i: int, after: string): string
  {
    if i < 0 then ['-'] + PutNat(-i, after) else PutNat(i, after)
  }

  function ReadInt(s: string): Option<Parsed<int>>
  {
    var t := SkipSpace(s);
    if t == "" then None
    else
      var unsigned := if t[0] == '-' || t[0] == '+' then t[1..] else t;
      if unsigned == "" || !IsDigit(unsigned[0]) then None
      else
        var r := ReadDigits(unsigned, 0);
        var value: int := r.value;
        Some(Parsed(if t[0] == '-' then -value else value, r.rest))
  }

  predicate EndsNumber(after: string)
  {
    after == "" || !IsDigit(after[0])
  }

  lemma {:induction false} DigitsRead(n: nat, after: string)
    ensures ReadDigits(PutNat(n, after), 0) == ReadDigits(after, n)
    decreases n
  {
    if n < 10 {
      assert ([Digit(n)] + after)[1..] == after;
    } else {
      var d := Digit(n % 10);
      DigitsRead(n / 10, [d] + after);
      assert ([d] + after)[1..] == after;
    }
  }

  lemma {:induction false} NatTrip(n: nat, after: string)
    requires EndsNumber(after)
    ensures ReadNat(PutNat(n, after)) == Some(Parsed(n, after))
  {
    DigitsRead(n, after);
  }

  lemma {:induction false} IntTrip(i: int, after: string)
    requires EndsNumber(after)
    ensures ReadInt(PutInt(i, after)) == Some(Parsed(i, after))
  {
    if i < 0 {
      DigitsRead(-i, after);
      assert (['-'] + PutNat(-i, after))[1..] == PutNat(-i, after);
    } else {
      DigitsRead(i, after);
    }
  }

  // ---- delimiters ----

  /** Everything behind the first c; nothing if there is none. */
  function IgnoreTo(s: string, c: char): string
  {
    if s == "" then "" else if s[0] == c then s[1..] else IgnoreTo(s[1..], c)
  }

  /** Everything before the first c, or all. */
  function Before(s: string, c: char): string
  {
    if s == "" || s[0] == c then "" else [s[0]] + Before(s[1..], c)
  }

  predicate Found(s: string, c: char)
  {
    s != "" && (s[0] == c || Found(s[1..], c))
  }

  lemma Ignored(c: char, after: string)
    ensures IgnoreTo([c] + after, c) == after
  {
  }

  lemma {:induction false} BeforeChar(x: char, after: string, c: char)
    ensures x != c ==> Before([x] + after, c) == [x] + Before(after, c)
    ensures x == c ==> Before([x] + after, c) == ""
    ensures x != c ==> IgnoreTo([x] + after, c) == IgnoreTo(after, c)
    ensures Found([x] + after, c) <==> x == c || Found(after, c)
  {
    assert ([x] + after)[1..] == after;
  }

  /** Digits contain no delimiter. */
  lemma {:induction false} BeforeNat(n: nat, after: string, c: char)
    requires !IsDigit(c)
    ensures Before(PutNat(n, after), c) == PutNat(n, Before(after, c))
    ensures IgnoreTo(PutNat(n, after), c) == IgnoreTo(after, c) && (Found(PutNat(n, after), c) <==> Found(after, c))
    decreases n
  {
    if n < 10 {
      BeforeChar(Digit(n), after, c);
    } else {
      BeforeNat(n / 10, [Digit(n % 10)] + after, c);
      BeforeChar(Digit(n % 10), after, c);
    }
  }

  lemma {:induction false} BeforeInt(i: int, after: string, c: char)
    requires !IsDigit(c) && c != '-'
    ensures Before(PutInt(i, after), c) == PutInt(i, Before(after, c))
    ensures IgnoreTo(PutInt(i, after), c) == IgnoreTo(after, c) && (Found(PutInt(i, after), c) <==> Found(after, c))
  {
    if i < 0 {
      BeforeChar('-', PutNat(-i, after), c);
      BeforeNat(-i, after, c);
    } else {
      BeforeNat(i, after, c);
    }
  }

  // ---- identifiers ----

  function PutSsvId(id: nat, after: string): string
  {
    [DELIM_LEFT] + PutNat(id, [DELIM_RIGHT] + after)
  }

  function ReadSsvId(s: string): Option<Parsed<nat>>
  {
    var id := ReadNat(IgnoreTo(s, DELIM_LEFT));
    if id.None? then None else Some(Parsed(id.value.value, IgnoreTo(id.value.rest, DELIM_RIGHT)))
  }

  function PutLpId(a: LpId, after: string): string
  {
    [DELIM_LEFT] + PutNat(a.id, [DELIM_VAR_SEPARATOR] + PutNat(a.rank, [DELIM_RIGHT] + after))
  }

  function ReadLpId(s: string): Option<Parsed<LpId>>
  {
    var id := ReadNat(IgnoreTo(s, DELIM_LEFT));
    if id.None? then None
    else
      var rank := ReadNat(IgnoreTo(id.value.rest, DELIM_VAR_SEPARATOR));
      if rank.None? then None
      else Some(Parsed(LpId(id.value.value, rank.value.value), IgnoreTo(rank.value.rest, DELIM_RIGHT)))
  }

  lemma {:induction false} SsvIdTrip(id: nat, after: string)
    ensures ReadSsvId(PutSsvId(id, after)) == Some(Parsed(id, after))
  {
    Ignored(DELIM_LEFT, PutNat(id, [DELIM_RIGHT] + after));
    NatTrip(id, [DELIM_RIGHT] + after);
    Ignored(DELIM_RIGHT, after);
  }

  lemma {:induction false} LpIdTrip(a: LpId, after: string)
    ensures ReadLpId(PutLpId(a, after)) == Some(Parsed(a, after))
  {
    var tail := PutNat(a.rank, [DELIM_RIGHT] + after);
    Ignored(DELIM_LEFT, PutNat(a.id, [DELIM_VAR_SEPARATOR] + tail));
    NatTrip(a.id, [DELIM_VAR_SEPARATOR] + tail);
    Ignored(DELIM_VAR_SEPARATOR, tail);
    NatTrip(a.rank, [DELIM_RIGHT] + after);
    Ignored(DELIM_RIGHT, after);
  }

  // ---- the containers ----

  /** The entries of a list, map or multimap: each between its two delimiters. put prints one
      entry, given what follows. */
  function PutEntries<T>(put: (T, string) -> string, xs: seq<T>, after: string): string
  {
    if xs == [] then after
    else [DELIM_LIST_LEFT] + put(xs[0], [DELIM_LIST_RIGHT] + PutEntries(put, xs[1..], after))
  }

  function PutContainer<T>(put: (T, string) -> string, xs: seq<T>, after: string): string
  {
    PutNat(|xs|, PutEntries(put, xs, after))
  }

  /** Entries are read by read and go into the container as insert has it. */
  function ReadEntries<T, C>(read: string -> Option<Parsed<T>>, insert: (C, T) -> C, n: nat, s: string, c: C)
    : Option<Parsed<C>>
  {
    if n == 0 then Some(Parsed(c, s))
    else
      var entry := read(IgnoreTo(s, DELIM_LIST_LEFT));
      if entry.None? then None
      else ReadEntries(read, insert, n - 1, IgnoreTo(entry.value.rest, DELIM_LIST_RIGHT), insert(c, entry.value.value))
  }

  function ReadContainer<T, C>(read: string -> Option<Parsed<T>>, insert: (C, T) -> C, empty: C, s: string)
    : Option<Parsed<C>>
  {
    var size := ReadNat(s);
    if size.None? then None else ReadEntries(read, insert, size.value.value, size.value.rest, empty)
  }

  function InsertEach<T, C>(insert: (C, T) -> C, c: C, xs: seq<T>): C
  {
    if xs == [] then c else InsertEach(insert, insert(c, xs[0]), xs[1..])
  }

  /** An entry is read back when the end of the entry follows. */
  ghost predicate EntryReadsBack<T>(put: (T, string) -> string, read: string -> Option<Parsed<T>>, x: T)
  {
    forall tail: string :: read(put(x, [DELIM_LIST_RIGHT] + tail)) == Some(Parsed(x, [DELIM_LIST_RIGHT] + tail))
  }

  lemma {:induction false} EntriesTrip<T, C>(put: (T, string) -> string, read: string -> Option<Parsed<T>>,
                                             insert: (C, T) -> C, c: C, xs: seq<T>, after: string)
    requires forall x | x in xs :: EntryReadsBack(put, read, x)
    ensures ReadEntries(read, insert, |xs|, PutEntries(put, xs, after), c) == Some(Parsed(InsertEach(insert, c, xs), after))
    decreases |xs|
  {
    if xs != [] {
      assert EntryReadsBack(put, read, xs[0]) && forall x | x in xs[1..] :: x in xs;
      var tail := PutEntries(put, xs[1..], after);
      Ignored(DELIM_LIST_LEFT, put(xs[0], [DELIM_LIST_RIGHT] + tail));
      Ignored(DELIM_LIST_RIGHT, tail);
      EntriesTrip(put, read, insert, insert(c, xs[0]), xs[1..], after);
    }
  }

  /** A container whose entries are read back is, into what inserting them one by one makes. */
  lemma {:induction false} ContainerTrip<T, C>(put: (T, string) -> string, read: string -> Option<Parsed<T>>,
                                               insert: (C, T) -> C, empty: C, xs: seq<T>, after: string)
    requires EndsNumber(after) && forall x | x in xs :: EntryReadsBack(put, read, x)
    ensures ReadContainer(read, insert, empty, PutContainer(put, xs, after))
            == Some(Parsed(InsertEach(insert, empty, xs), after))
  {
    NatTrip(|xs|, PutEntries(put, xs, after));
    EntriesTrip(put, read, insert, empty, xs, after);
  }
}
