/** Volume bindings as text: src:dst:flags:size:read_IOPS:write_IOPS:read_bytes:write_bytes. */
module BindingText {
  import opened Quantity
  import opened Options
  import opened Bindings

  /** How numbers are written and read. */
  datatype Numbers = Numbers(write: int -> string, read: string -> Option<int>)

  /** A number is read as it was written, and its text has no colon. */
  predicate Readable(codec: Numbers, n: int) {
    codec.read(codec.write(n)) == Some(n) && ':' !in codec.write(n)
  }

  // ---- Flags

  /** strings.ReplaceAll for a single character. */
  function ReplaceAll(s: string, c: char, into: string): string {
    if s == "" then "" else ReplaceAll(s[..|s| - 1], c, into) + if s[|s| - 1] == c then into else [s[|s| - 1]]
  }

  /** The flags as written: with an 'o', every 'r' and 'w' gets one of its own instead. */
  function FlagsText(flags: string): string {
    if 'o' in flags then WithO(WithO(ReplaceAll(flags, 'o', ""), 'r'), 'w') else flags
  }

  /** Every c followed by an 'o'. */
  function WithO(s: string, c: char): string {
    ReplaceAll(s, c, [c, 'o'])
  }

  ghost predicate SortedChars(s: string) {
    forall i, j :: 0 <= i < j < |s| ==> s[i] <= s[j]
  }

  function InsertChar(s: string, c: char): (r: string)
    ensures multiset(r) == multiset(s) + multiset{c} && |r| == |s| + 1
  {
    if s == "" || s[|s| - 1] <= c then s + [c] else
      assert s == s[..|s| - 1] + [s[|s| - 1]];
      InsertChar(s[..|s| - 1], c) + [s[|s| - 1]]
  }

  function SortChars(s: string): (r: string)
    ensures multiset(r) == multiset(s) && |r| == |s|
  {
    if s == "" then "" else
      assert s == s[..|s| - 1] + [s[|s| - 1]];
      InsertChar(SortChars(s[..|s| - 1]), s[|s| - 1])
  }

  /** The flags as read: sorted, "rw" when there are none. */
  function ReadFlags(text: string): string {
    if text == "" then DefaultFlags() else SortChars(text)
  }

  function DefaultFlags(): string {
    "rw"
  }

  lemma {:induction false} InsertCharSorted(s: string, c: char)
    requires SortedChars(s)
    ensures SortedChars(InsertChar(s, c))
    ensures InsertChar(s, c)[|s|] == if s == "" || s[|s| - 1] <= c then c else s[|s| - 1]
  {
    if s != "" && s[|s| - 1] > c {
      InsertCharSorted(s[..|s| - 1], c);
    }
  }

  lemma {:induction false} SortCharsSorted(s: string)
    ensures SortedChars(SortChars(s))
  {
    if s != "" {
      SortCharsSorted(s[..|s| - 1]);
      InsertCharSorted(SortChars(s[..|s| - 1]), s[|s| - 1]);
    }
  }

  lemma LastIsLargest(s: string, c: char)
    requires SortedChars(s) && c in s
    ensures c <= s[|s| - 1]
  {
  }

  lemma WithoutLast(s: string)
    requires s != ""
    ensures s == s[..|s| - 1] + [s[|s| - 1]] && multiset(s[..|s| - 1]) == multiset(s) - multiset{s[|s| - 1]}
  {
    assert s == s[..|s| - 1] + [s[|s| - 1]];
  }

  lemma SameLastChar(s: string, t: string)
    requires SortedChars(s) && SortedChars(t) && multiset(s) == multiset(t) && s != ""
    ensures |s| == |t| && s[|s| - 1] == t[|t| - 1]
  {
    assert |s| == |multiset(s)| == |multiset(t)| == |t|;
    assert s[|s| - 1] in multiset(t) && t[|t| - 1] in multiset(s);
    LastIsLargest(t, s[|s| - 1]);
    LastIsLargest(s, t[|t| - 1]);
  }

  lemma {:induction false} SortedCharsUnique(s: string, t: string)
    requires SortedChars(s) && SortedChars(t) && multiset(s) == multiset(t)
    ensures s == t
  {
    if s == "" {
      assert |multiset(t)| == |t|;
    } else {
      SameLastChar(s, t);
      WithoutLast(s);
      WithoutLast(t);
      SortedCharsUnique(s[..|s| - 1], t[..|t| - 1]);
    }
  }

  function Occurrences(s: string, c: char): nat {
    if s == "" then 0 else Occurrences(s[..|s| - 1], c) + if s[|s| - 1] == c then 1 else 0
  }

  lemma {:induction false} OccurrencesCount(s: string, c: char)
    ensures Occurrences(s, c) == multiset(s)[c]
  {
    if s != "" {
      OccurrencesCount(s[..|s| - 1], c);
      WithoutLast(s);
    }
  }

  lemma {:induction false} CountConcat(a: string, b: string, c: char)
    ensures Occurrences(a + b, c) == Occurrences(a, c) + Occurrences(b, c)
  {
    if b == "" {
      assert a + b == a;
    } else {
      assert (a + b)[..|a + b| - 1] == a + b[..|b| - 1];
      CountConcat(a, b[..|b| - 1], c);
    }
  }

  lemma CountTwo(a: char, b: char, c: char)
    ensures Occurrences([a, b], c) == (if a == c then 1 else 0) + if b == c then 1 else 0
    ensures Occurrences([a], c) == if a == c then 1 else 0
  {
    assert [a, b] == [a] + [b];
    CountConcat([a], [b], c);
    assert [a][..0] == "" && [b][..0] == "";
  }

  lemma {:induction false} ReplaceCount(s: string, c: char, into: string, x: char)
    ensures Occurrences(ReplaceAll(s, c, into), x) == (if x == c then 0 else Occurrences(s, x)) + Occurrences(s, c) * Occurrences(into, x)
  {
    if s != "" {
      var n := |s| - 1;
      var front := ReplaceAll(s[..n], c, into);
      ReplaceCount(s[..n], c, into, x);
      CountConcat(front, if s[n] == c then into else [s[n]], x);
      CountTwo(s[n], s[n], x);
      ReplaceStep(Occurrences(s[..n], c), Occurrences(into, x));
    }
  }

  lemma ReplaceStep(k: nat, m: nat)
    ensures (k + 1) * m == k * m + m
  {
  }

  lemma RemovedCount(s: string, c: char, x: char)
    ensures Occurrences(ReplaceAll(s, c, ""), x) == if x == c then 0 else Occurrences(s, x)
  {
    ReplaceCount(s, c, "", x);
    assert Occurrences("", x) == 0;
  }

  lemma WithOCount(s: string, c: char, x: char)
    requires c != 'o'
    ensures Occurrences(WithO(s, c), x) == Occurrences(s, x) + if x == 'o' then Occurrences(s, c) else 0
  {
    ReplaceCount(s, c, [c, 'o'], x);
    CountTwo(c, 'o', x);
  }

  /** Writing keeps every flag but 'o', and writes as many 'o' as there are 'r' and 'w'. */
  lemma FlagsCount(flags: string, x: char)
    requires 'o' in flags
    ensures Occurrences(FlagsText(flags), x) == if x == 'o' then Occurrences(flags, 'r') + Occurrences(flags, 'w') else Occurrences(flags, x)
  {
    var a := ReplaceAll(flags, 'o', "");
    var b := WithO(a, 'r');
    assert FlagsText(flags) == WithO(b, 'w');
    hide *;
    RemovedCount(flags, 'o', x);
    RemovedCount(flags, 'o', 'r');
    RemovedCount(flags, 'o', 'w');
    WithOCount(a, 'r', x);
    WithOCount(a, 'r', 'w');
    WithOCount(b, 'w', x);
  }

  /** Flags that are written as they are read. */
  ghost predicate StableFlags(flags: string) {
    && flags != "" && SortedChars(flags)
    && ('o' in flags ==> Occurrences(flags, 'o') == Occurrences(flags, 'r') + Occurrences(flags, 'w'))
  }

  /** Reading written flags gives them back exactly when they are not empty, sorted, and have no 'o' or one for every 'r' and 'w'. */
  lemma FlagsRoundTrip(flags: string)
    ensures ReadFlags(FlagsText(flags)) == flags <==> StableFlags(flags)
  {
    if StableFlags(flags) {
      StableRead(flags);
    }
    if ReadFlags(FlagsText(flags)) == flags {
      ReadStable(flags);
    }
  }

  lemma StableRead(flags: string)
    requires StableFlags(flags)
    ensures ReadFlags(FlagsText(flags)) == flags
  {
    var text := FlagsText(flags);
    StableSame(flags);
    SortCharsSorted(text);
    assert |text| == |multiset(text)| == |multiset(flags)| == |flags|;
    hide FlagsText;
    SortedCharsUnique(SortChars(text), flags);
  }

  lemma ReadStable(flags: string)
    requires ReadFlags(FlagsText(flags)) == flags
    ensures StableFlags(flags)
  {
    var text := FlagsText(flags);
    SortCharsSorted(text);
    assert flags == "rw" ==> text == "rw";
    if text != "" && 'o' in flags {
      assert multiset(text) == multiset(flags);
      OccurrencesCount(text, 'o');
      OccurrencesCount(flags, 'o');
      FlagsCount(flags, 'o');
    }
  }

  /** Stable flags are written with the same characters. */
  lemma StableSame(flags: string)
    requires StableFlags(flags)
    ensures multiset(FlagsText(flags)) == multiset(flags)
  {
    var text := FlagsText(flags);
    if 'o' in flags {
      forall x: char ensures multiset(text)[x] == multiset(flags)[x] {
        FlagsCount(flags, x);
        OccurrencesCount(text, x);
        OccurrencesCount(flags, x);
      }
    }
  }

  // ---- Fields

  /** strings.Split(s, ":") */
  function Split(s: string): (parts: seq<string>)
    ensures |parts| >= 1
  {
    if s == "" then [""]
    else if s[0] == ':' then [""] + Split(s[1..])
    else
      var rest := Split(s[1..]);
      [[s[0]] + rest[0]] + rest[1..]
  }

  lemma {:induction false} SplitField(a: string, s: string)
    ensures |Split(a + ":" + s)| == |Split(a)| + |Split(s)|
    ensures ':' !in a ==> Split(a) == [a] && Split(a + ":" + s) == [a] + Split(s)
  {
    if a == "" {
      assert ":" + s == [':'] + s && (":" + s)[1..] == s;
      assert a + ":" + s == ":" + s;
    } else {
      var t := a + ":" + s;
      assert t[0] == a[0] && t[1..] == a[1..] + ":" + s;
      SplitField(a[1..], s);
      assert a == [a[0]] + a[1..];
    }
  }

  lemma {:induction false} SplitMany(a: string)
    ensures |Split(a)| > 1 <==> ':' in a
  {
    if a != "" {
      SplitMany(a[1..]);
      assert a == [a[0]] + a[1..];
    }
  }

  /** The fields with colons between them. */
  function Join(fields: seq<string>): string
    requires fields != []
  {
    if |fields| == 1 then fields[0] else fields[0] + ":" + Join(fields[1..])
  }

  /** Splitting joined fields gives them back exactly when none of them has a colon; otherwise there are more. */
  lemma {:induction false} SplitJoin(fields: seq<string>)
    requires fields != []
    ensures if forall f :: f in fields ==> ':' !in f then Split(Join(fields)) == fields else |Split(Join(fields))| > |fields|
    ensures |Split(Join(fields))| >= |fields|
  {
    SplitMany(fields[0]);
    if |fields| == 1 {
      assert fields == [fields[0]];
      SplitField(fields[0], "");
    } else {
      assert fields == [fields[0]] + fields[1..];
      SplitJoin(fields[1..]);
      SplitField(fields[0], Join(fields[1..]));
    }
  }

  // ---- Bindings

  function Fields(codec: Numbers, b: VolumeBinding): (fields: seq<string>)
    ensures |fields| == 8
  {
    [b.source, b.destination, FlagsText(b.flags), codec.write(b.size), codec.write(b.quota.readIOPS), codec.write(b.quota.writeIOPS),
     codec.write(b.quota.readBPS), codec.write(b.quota.writeBPS)]
  }

  /** VolumeBinding.ToString(false) */
  function ToString(codec: Numbers, b: VolumeBinding): string {
    Join(Fields(codec, b))
  }

  /** The fields of a text with the defaults for those left out. */
  function Padded(parts: seq<string>): (r: seq<string>)
    requires 2 <= |parts| <= 8
    ensures |r| == 8
  {
    var p := if |parts| == 2 then parts + [DefaultFlags()] else parts;
    p + seq(8 - |p|, i => Zero())
  }

  function Zero(): string {
    "0"
  }

  lemma PaddedFields(fields: seq<string>)
    requires 2 <= |fields| <= 8
    ensures var p := Padded(fields);
      && p[0] == fields[0] && p[1] == fields[1] && p[2] == (if |fields| > 2 then fields[2] else DefaultFlags())
      && forall k :: 3 <= k < 8 ==> p[k] == if k < |fields| then fields[k] else Zero()
  {
    hide Zero, DefaultFlags;
  }

  lemma DefaultSorted()
    ensures SortChars(DefaultFlags()) == DefaultFlags()
  {
    assert "rw"[..1] == "r" && "r"[..0] == "";
  }

  /** NewVolumeBinding */
  function Parse(codec: Numbers, text: string): Result<VolumeBinding> {
    var parts := Split(text);
    if |parts| > 8 || |parts| < 2 then Err(ErrInvalidVolume) else FromFields(codec, Padded(parts))
  }

  function FromFields(codec: Numbers, p: seq<string>): Result<VolumeBinding>
    requires |p| == 8
  {
    var size, a, b, c, d := codec.read(p[3]), codec.read(p[4]), codec.read(p[5]), codec.read(p[6]), codec.read(p[7]);
    if size.None? || a.None? || b.None? || c.None? || d.None? || p[1] == "" then Err(ErrInvalidVolume) else
      Ok(VolumeBinding(p[0], p[1], ReadFlags(p[2]), size.value, Quota(a.value, b.value, c.value, d.value)))
  }

  /** No field has a colon. */
  ghost predicate NoColons(fields: seq<string>) {
    forall f :: f in fields ==> ':' !in f
  }

  /** The number in field k, nothing when it is left out. */
  function NumberAt(codec: Numbers, fields: seq<string>, k: nat): int
    requires k < |fields| ==> codec.read(fields[k]).Some?
  {
    if k < |fields| then codec.read(fields[k]).value else 0
  }

  /** Every number written can be read. */
  ghost predicate AllRead(codec: Numbers, fields: seq<string>) {
    forall k :: 3 <= k < |fields| ==> codec.read(fields[k]).Some?
  }

  lemma PaddedNumbers(codec: Numbers, fields: seq<string>)
    requires 2 <= |fields| <= 8 && codec.read(Zero()) == Some(0)
    ensures AllRead(codec, Padded(fields)) <==> AllRead(codec, fields)
    ensures AllRead(codec, fields) ==>
      forall k :: 3 <= k < 8 ==> codec.read(Padded(fields)[k]).value == NumberAt(codec, fields, k)
  {
    PaddedFields(fields);
    hide Padded, Zero;
    if AllRead(codec, Padded(fields)) {
      forall k | 3 <= k < |fields| ensures codec.read(fields[k]).Some? {
        assert Padded(fields)[k] == fields[k];
      }
    }
  }

  lemma FromRead(codec: Numbers, p: seq<string>)
    requires |p| == 8
    ensures FromFields(codec, p).Err? <==> p[1] == "" || !AllRead(codec, p)
  {
    hide ReadFlags;
    assert AllRead(codec, p) ==> codec.read(p[3]).Some? && codec.read(p[4]).Some? && codec.read(p[5]).Some?;
    assert AllRead(codec, p) ==> codec.read(p[6]).Some? && codec.read(p[7]).Some?;
  }

  /** A text is refused when it has too few or too many fields, no destination, or a number that cannot be read. */
  lemma RefusedText(codec: Numbers, fields: seq<string>)
    requires NoColons(fields) && fields != [] && codec.read(Zero()) == Some(0)
    ensures Parse(codec, Join(fields)).Err? <==> |fields| < 2 || |fields| > 8 || fields[1] == "" || !AllRead(codec, fields)
  {
    SplitJoin(fields);
    hide Split, Join, Padded, Zero, AllRead, FromFields;
    if 2 <= |fields| <= 8 {
      PaddedFields(fields);
      PaddedNumbers(codec, fields);
      FromRead(codec, Padded(fields));
    }
  }

  /** Texts of fewer fields are read as if the flags left out were the default ones and the numbers left out were zero. */
  lemma ShortText(codec: Numbers, fields: seq<string>)
    requires NoColons(fields) && 2 <= |fields| <= 8 && AllRead(codec, fields)
    requires codec.read(Zero()) == Some(0) && fields[1] != ""
    ensures Parse(codec, Join(fields)) == Ok(VolumeBinding(fields[0], fields[1],
      if |fields| > 2 && fields[2] != "" then SortChars(fields[2]) else DefaultFlags(), NumberAt(codec, fields, 3),
      Quota(NumberAt(codec, fields, 4), NumberAt(codec, fields, 5), NumberAt(codec, fields, 6), NumberAt(codec, fields, 7))))
  {
    SplitJoin(fields);
    PaddedFields(fields);
    PaddedNumbers(codec, fields);
    DefaultSorted();
    FromRead(codec, Padded(fields));
    assert DefaultFlags() != "";
    hide Split, Join, Padded, SortChars, Zero, DefaultFlags;
  }

  /** Bindings whose text is read back as the same binding. */
  ghost predicate Printable(b: VolumeBinding) {
    ':' !in b.source && ':' !in b.destination && ':' !in b.flags && b.destination != "" && StableFlags(b.flags)
  }

  ghost predicate ReadableNumbers(codec: Numbers, b: VolumeBinding) {
    && Readable(codec, b.size) && Readable(codec, b.quota.readIOPS) && Readable(codec, b.quota.writeIOPS)
    && Readable(codec, b.quota.readBPS) && Readable(codec, b.quota.writeBPS)
  }

  lemma FlagsColon(flags: string)
    ensures ':' in FlagsText(flags) <==> ':' in flags
  {
    if 'o' in flags {
      FlagsCount(flags, ':');
      OccurrencesCount(flags, ':');
      OccurrencesCount(FlagsText(flags), ':');
      assert ':' in FlagsText(flags) <==> ':' in multiset(FlagsText(flags));
      assert ':' in flags <==> ':' in multiset(flags);
    }
  }

  /** Parsing the text of a binding gives the binding back exactly for the printable ones. */
  lemma RoundTrip(codec: Numbers, b: VolumeBinding)
    requires ReadableNumbers(codec, b)
    ensures Parse(codec, ToString(codec, b)) == Ok(b) <==> Printable(b)
  {
    var fields := Fields(codec, b);
    SplitJoin(fields);
    FlagsColon(b.flags);
    FlagsRoundTrip(b.flags);
    if ':' !in b.source && ':' !in b.destination && ':' !in b.flags {
      assert Split(ToString(codec, b)) == fields;
      assert Padded(fields) == fields;
    } else {
      assert fields[0] == b.source && fields[1] == b.destination && fields[2] == FlagsText(b.flags);
      assert |Split(ToString(codec, b))| > 8;
    }
  }
}
