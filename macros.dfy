/**
 * The four line formatters of `src/systemd/macros.rs` and the formatter buffer
 * they append to.
 *
 * Every formatter invocation in a section's `Display::fmt` pairs a key with one
 * optional field; `Field` records that pair together with the formatter used
 * (`Scalar` for `write_option!` and for the hand-written `if let Some(x)`
 * blocks, `Joined` for `write_vec!`, `PerLine` for `write_vec_multi!` and the
 * hand-written `for` loops, `Flag` for `write_bool!`). `FieldLines` is what
 * each formatter writes, as lines without their `\n`.
 */
module Macros {
  import opened Wrappers
  import opened Text

  datatype Field =
    | Scalar(key: string, value: Option<string>)
    | Joined(key: string, values: Option<seq<string>>)
    | PerLine(key: string, values: Option<seq<string>>)
    | Flag(key: string, flag: Option<bool>)

  /** A number written with `{}`: its decimal digits. */
  function Number(o: Option<nat>): (r: Option<string>)
    ensures r.Some? <==> o.Some?
    ensures o.Some? ==> r.value == Decimal(o.value)
  {
    match o
    case None => None
    case Some(n) => Some(Decimal(n))
  }

  /** A signed number written with `{}`: a `-` for negatives, then the digits. */
  function SignedNumber(o: Option<int>): (r: Option<string>)
    ensures r.Some? <==> o.Some?
    ensures o.Some? ==> r.value == SignedDecimal(o.value)
  {
    match o
    case None => None
    case Some(n) => Some(SignedDecimal(n))
  }

  function BoolToken(b: bool): string {
    if b then "yes" else "no"
  }

  /** One `key=v` line per element of `values`, in order, duplicates kept. */
  function KeyLines(key: string, values: seq<string>): (r: seq<string>)
    ensures |r| == |values|
    ensures forall i :: 0 <= i < |values| ==> r[i] == key + "=" + values[i]
  {
    if |values| == 0 then [] else [key + "=" + values[0]] + KeyLines(key, values[1..])
  }

  /** The lines one formatter invocation writes. */
  function FieldLines(f: Field): seq<string> {
    match f
    case Scalar(key, None) => []
    case Scalar(key, Some(v)) => [key + "=" + v]
    case Joined(key, None) => []
    case Joined(key, Some(vs)) => if |vs| == 0 then [] else [key + "=" + Join(vs, " ")]
    case PerLine(key, None) => []
    case PerLine(key, Some(vs)) => KeyLines(key, vs)
    case Flag(key, None) => []
    case Flag(key, Some(b)) => [key + "=" + BoolToken(b)]
  }

  /** The lines a fixed sequence of formatter invocations writes, in order. */
  function FieldsLines(fs: seq<Field>): seq<string> {
    if |fs| == 0 then [] else FieldsLines(fs[..|fs| - 1]) + FieldLines(fs[|fs| - 1])
  }

  /** A section: its `[Name]` header line, then the lines of its fields. */
  function SectionText(header: string, fs: seq<Field>): string {
    JoinLines([header] + FieldsLines(fs))
  }

  /** The field holds a value (for a list: at least one element for `write_vec!`). */
  predicate Emits(f: Field) {
    match f
    case Scalar(_, v) => v.Some?
    case Joined(_, vs) => vs.Some? && |vs.value| > 0
    case PerLine(_, vs) => vs.Some? && |vs.value| > 0
    case Flag(_, b) => b.Some?
  }

  predicate Unset(f: Field) {
    match f
    case Scalar(_, v) => v.None?
    case Joined(_, vs) => vs.None?
    case PerLine(_, vs) => vs.None?
    case Flag(_, b) => b.None?
  }

  // ---------------------------------------------------------------------------
  // The formatter buffer
  // ---------------------------------------------------------------------------

  /** `fmt::Formatter` seen as the text written so far; writes never fail here. */
  class Formatter {
    var text: string

    constructor ()
      ensures text == ""
    {
      text := "";
    }

    method WriteStr(s: string)
      modifies this
      ensures text == old(text) + s
    {
      text := text + s;
    }

    /** `writeln!(buf, "{}={}", key, value)`. */
    method WriteLine(key: string, value: string)
      modifies this
      ensures text == old(text) + JoinLines([key + "=" + value])
    {
      text := text + (key + "=" + value + "\n");
    }

    /** `write_option!`: one line when the field is set, nothing otherwise. */
    method WriteOption(key: string, value: Option<string>)
      modifies this
      ensures text == old(text) + JoinLines(FieldLines(Scalar(key, value)))
    {
      if value.Some? {
        WriteLine(key, value.value);
      }
    }

    /** `write_vec!`: the elements joined by single spaces on one line, unless absent or empty. */
    method WriteVec(key: string, values: Option<seq<string>>)
      modifies this
      ensures text == old(text) + JoinLines(FieldLines(Joined(key, values)))
    {
      if values.Some? {
        if |values.value| != 0 {
          WriteLine(key, Join(values.value, " "));
        }
      }
    }

    /** `write_vec_multi!`: one line per element. */
    method WriteVecMulti(key: string, values: Option<seq<string>>)
      modifies this
      ensures text == old(text) + JoinLines(FieldLines(PerLine(key, values)))
    {
      if values.Some? {
        var vs := values.value;
        var i := 0;
        while i < |vs|
          invariant 0 <= i <= |vs|
          invariant text == old(text) + JoinLines(KeyLines(key, vs[..i]))
        {
          JoinLinesAppend(KeyLines(key, vs[..i]), [key + "=" + vs[i]]);
          assert KeyLines(key, vs[..i + 1]) == KeyLines(key, vs[..i]) + [key + "=" + vs[i]];
          WriteLine(key, vs[i]);
          i := i + 1;
        }
        assert vs[..i] == vs;
      }
    }

    /** `write_bool!`: `yes` or `no` when set. */
    method WriteBool(key: string, flag: Option<bool>)
      modifies this
      ensures text == old(text) + JoinLines(FieldLines(Flag(key, flag)))
    {
      if flag.Some? {
        WriteLine(key, if flag.value then "yes" else "no");
      }
    }

    method WriteField(f: Field)
      modifies this
      ensures text == old(text) + JoinLines(FieldLines(f))
    {
      match f
      case Scalar(key, value) => WriteOption(key, value);
      case Joined(key, values) => WriteVec(key, values);
      case PerLine(key, values) => WriteVecMulti(key, values);
      case Flag(key, flag) => WriteBool(key, flag);
    }

    /** The formatter invocations of one section body, in their fixed order. */
    method WriteFields(fs: seq<Field>)
      modifies this
      ensures text == old(text) + JoinLines(FieldsLines(fs))
    {
      var i := 0;
      while i < |fs|
        invariant 0 <= i <= |fs|
        invariant text == old(text) + JoinLines(FieldsLines(fs[..i]))
      {
        FieldsLinesStep(fs, i);
        JoinLinesAppend(FieldsLines(fs[..i]), FieldLines(fs[i]));
        AppendAssoc(old(text), JoinLines(FieldsLines(fs[..i])), JoinLines(FieldLines(fs[i])));
        WriteField(fs[i]);
        i := i + 1;
      }
      assert fs[..i] == fs;
    }

    /** `buf.write_str("[Name]\n")` followed by the section's formatter invocations. */
    method WriteSection(header: string, fs: seq<Field>)
      modifies this
      ensures text == old(text) + SectionText(header, fs)
    {
      WriteStr(header + "\n");
      WriteFields(fs);
      JoinLinesAppend([header], FieldsLines(fs));
    }
  }

  // ---------------------------------------------------------------------------
  // What the formatters promise
  // ---------------------------------------------------------------------------

  /**
   * Every formatter writes only lines of the form `key=value`, with the value
   * text following `key=` verbatim: the scalar itself, the space-joined list,
   * one element, or `yes`/`no`.
   */
  lemma FieldLinesAreKeyed(f: Field)
    ensures forall i :: 0 <= i < |FieldLines(f)| ==>
      var line := FieldLines(f)[i];
      StartsWith(line, f.key + "=") && line[|f.key| + 1..] in FieldValues(f)
  {
    var lines := FieldLines(f);
    forall i | 0 <= i < |lines|
      ensures StartsWith(lines[i], f.key + "=") && lines[i][|f.key| + 1..] in FieldValues(f)
    {
      assert lines[i] == (f.key + "=") + lines[i][|f.key| + 1..];
    }
  }

  /** The value texts a field may put after `key=`. */
  function FieldValues(f: Field): set<string> {
    match f
    case Scalar(_, v) => if v.Some? then {v.value} else {}
    case Joined(_, vs) => if vs.Some? && |vs.value| > 0 then {Join(vs.value, " ")} else {}
    case PerLine(_, vs) => if vs.Some? then set i | 0 <= i < |vs.value| :: vs.value[i] else {}
    case Flag(_, b) => if b.Some? then {BoolToken(b.value)} else {}
  }

  /**
   * How many lines each formatter writes: nothing for an absent field or an empty
   * `write_vec!` list, one line for a scalar, flag or non-empty joined list, and
   * one line per element for `write_vec_multi!`.
   */
  lemma FieldLineCount(f: Field)
    ensures |FieldLines(f)| == (if f.PerLine? && f.values.Some? then |f.values.value| else if Emits(f) then 1 else 0)
    ensures |FieldLines(f)| > 0 <==> Emits(f)
    ensures Unset(f) ==> FieldLines(f) == []
  {
  }

  /**
   * The space-joined line of `write_vec!` gives the list back when split at
   * spaces, provided no element contains a space.
   */
  lemma JoinedLineRoundTrip(key: string, values: seq<string>)
    requires |values| > 0
    requires forall i :: 0 <= i < |values| ==> ' ' !in values[i]
    ensures FieldLines(Joined(key, Some(values))) == [key + "=" + Join(values, " ")]
    ensures Split(FieldLines(Joined(key, Some(values)))[0][|key| + 1..], ' ') == values
  {
    var line := key + "=" + Join(values, " ");
    assert line[|key| + 1..] == Join(values, " ");
    SplitJoin(values, ' ');
  }

  lemma FieldsLinesStep(fs: seq<Field>, i: nat)
    requires i < |fs|
    ensures FieldsLines(fs[..i + 1]) == FieldsLines(fs[..i]) + FieldLines(fs[i])
  {
    assert fs[..i + 1][..i] == fs[..i];
  }

  /** The lines of the first three fields of a table, field by field. */
  lemma FieldsLinesFirstThree(fs: seq<Field>)
    requires 3 <= |fs|
    ensures FieldsLines(fs[..3]) == FieldLines(fs[0]) + FieldLines(fs[1]) + FieldLines(fs[2])
  {
    assert fs[..0] == [];
    FieldsLinesStep(fs, 0);
    assert FieldsLines(fs[..1]) == FieldLines(fs[0]);
    FieldsLinesStep(fs, 1);
    FieldsLinesStep(fs, 2);
  }

  lemma {:induction false} FieldsLinesAppend(a: seq<Field>, b: seq<Field>)
    ensures FieldsLines(a + b) == FieldsLines(a) + FieldsLines(b)
    decreases |b|
  {
    if |b| == 0 {
      assert a + b == a;
    } else {
      var ab := a + b;
      assert ab[..|ab| - 1] == a + b[..|b| - 1];
      assert ab[|ab| - 1] == b[|b| - 1];
      FieldsLinesAppend(a, b[..|b| - 1]);
      AppendAssoc(FieldsLines(a), FieldsLines(b[..|b| - 1]), FieldLines(b[|b| - 1]));
    }
  }

  /**
   * A sequence of formatter invocations writes nothing exactly when none of its
   * fields emits; in particular, when every field is unset.
   */
  lemma {:induction false} SilentFields(fs: seq<Field>)
    ensures FieldsLines(fs) == [] <==> forall i :: 0 <= i < |fs| ==> !Emits(fs[i])
  {
    if |fs| > 0 {
      var init := fs[..|fs| - 1];
      SilentFields(init);
      FieldLineCount(fs[|fs| - 1]);
      assert forall i :: 0 <= i < |init| ==> init[i] == fs[i];
    }
  }

  /** Index of the field that wrote each line, for the lines of `fs`. */
  function LineOwners(fs: seq<Field>): seq<nat> {
    if |fs| == 0 then []
    else LineOwners(fs[..|fs| - 1]) + seq(|FieldLines(fs[|fs| - 1])|, _ => |fs| - 1)
  }

  /**
   * Lines come out in table order: line `p` was written by field `LineOwners(fs)[p]`,
   * is one of that field's lines, and the owners never decrease along the text.
   */
  lemma {:induction false} LinesFollowFieldOrder(fs: seq<Field>)
    ensures |LineOwners(fs)| == |FieldsLines(fs)|
    ensures forall p :: 0 <= p < |FieldsLines(fs)| ==>
      LineOwners(fs)[p] < |fs| && FieldsLines(fs)[p] in FieldLines(fs[LineOwners(fs)[p]])
    ensures forall p, q :: 0 <= p <= q < |LineOwners(fs)| ==> LineOwners(fs)[p] <= LineOwners(fs)[q]
  {
    if |fs| > 0 {
      var init := fs[..|fs| - 1];
      LinesFollowFieldOrder(init);
      var last := FieldLines(fs[|fs| - 1]);
      var n := |FieldsLines(init)|;
      assert forall p :: 0 <= p < n ==> FieldsLines(fs)[p] == FieldsLines(init)[p];
      assert forall p :: 0 <= p < n ==> LineOwners(fs)[p] == LineOwners(init)[p];
      assert forall k :: 0 <= k < |init| ==> init[k] == fs[k];
      forall p | n <= p < |FieldsLines(fs)|
        ensures LineOwners(fs)[p] == |fs| - 1 && FieldsLines(fs)[p] in FieldLines(fs[|fs| - 1])
      {
        assert FieldsLines(fs)[p] == last[p - n];
      }
    }
  }

  /** Every line a section writes after its header ends with a newline, including the last. */
  lemma SectionTextShape(header: string, fs: seq<Field>)
    ensures StartsWith(SectionText(header, fs), header + "\n")
    ensures SectionText(header, fs) == header + "\n" + JoinLines(FieldsLines(fs))
  {
    JoinLinesAppend([header], FieldsLines(fs));
  }

  /** A section none of whose fields emits renders as its header line alone. */
  lemma SilentSection(header: string, fs: seq<Field>)
    requires forall i :: 0 <= i < |fs| ==> Unset(fs[i])
    ensures SectionText(header, fs) == header + "\n"
  {
    forall i | 0 <= i < |fs| ensures !Emits(fs[i]) {
      FieldLineCount(fs[i]);
    }
    SilentFields(fs);
    SectionTextShape(header, fs);
  }

  /** Fields that are all unset write no line at all. */
  lemma UnsetFieldsWriteNothing(fs: seq<Field>)
    requires forall i :: 0 <= i < |fs| ==> Unset(fs[i])
    ensures FieldsLines(fs) == []
  {
    forall i | 0 <= i < |fs| ensures !Emits(fs[i]) {
      FieldLineCount(fs[i]);
    }
    SilentFields(fs);
  }

  /** Every line a field writes appears among the lines of the table it belongs to. */
  lemma FieldLinesWritten(fs: seq<Field>, i: nat)
    requires i < |fs|
    ensures forall line :: line in FieldLines(fs[i]) ==> line in FieldsLines(fs)
  {
    assert fs == fs[..i + 1] + fs[i + 1..];
    FieldsLinesAppend(fs[..i + 1], fs[i + 1..]);
    FieldsLinesStep(fs, i);
  }

  predicate KeysStartWith(fs: seq<Field>, prefix: string) {
    forall i :: 0 <= i < |fs| ==> StartsWith(fs[i].key, prefix)
  }

  /** When every key of a table shares a prefix, so does every line it writes. */
  lemma PrefixedKeysPrefixedLines(fs: seq<Field>, prefix: string)
    requires KeysStartWith(fs, prefix)
    ensures forall p :: 0 <= p < |FieldsLines(fs)| ==> StartsWith(FieldsLines(fs)[p], prefix)
  {
    LinesFollowFieldOrder(fs);
    forall p | 0 <= p < |FieldsLines(fs)|
      ensures StartsWith(FieldsLines(fs)[p], prefix)
    {
      var f := fs[LineOwners(fs)[p]];
      FieldLinesAreKeyed(f);
      var k :| 0 <= k < |FieldLines(f)| && FieldLines(f)[k] == FieldsLines(fs)[p];
      assert StartsWith(FieldLines(f)[k], f.key + "=");
    }
  }

  /** Unset fields at the end of a table add nothing to what it writes. */
  lemma UnsetSuffixWritesNothing(fs: seq<Field>, k: nat)
    requires k <= |fs|
    requires forall j :: k <= j < |fs| ==> Unset(fs[j])
    ensures FieldsLines(fs) == FieldsLines(fs[..k])
  {
    var before, after := fs[..k], fs[k..];
    UnsetSuffixSilent(fs, k);
    FieldsLinesAppend(before, after);
    assert before + after == fs;
    assert FieldsLines(before) + FieldsLines(after) == FieldsLines(before);
  }

  lemma UnsetSuffixSilent(fs: seq<Field>, k: nat)
    requires k <= |fs|
    requires forall j :: k <= j < |fs| ==> Unset(fs[j])
    ensures FieldsLines(fs[k..]) == []
  {
    var after := fs[k..];
    forall j | 0 <= j < |after| ensures Unset(after[j]) {
      assert after[j] == fs[k + j];
    }
    UnsetFieldsWriteNothing(after);
  }

  /** A table in which only one field is set writes exactly that field's lines. */
  lemma OnlyFieldWrites(fs: seq<Field>, i: nat)
    requires i < |fs|
    requires forall j :: 0 <= j < |fs| && j != i ==> Unset(fs[j])
    ensures FieldsLines(fs) == FieldLines(fs[i])
  {
    UnsetSuffixWritesNothing(fs, i + 1);
    FieldsLinesStep(fs, i);
    UnsetFieldsWriteNothing(fs[..i]);
  }
}
