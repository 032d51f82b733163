/**
 * The [Install] section of `src/systemd/install.rs`: the all-optional `Install`
 * record and its rendering.
 */
module InstallSection {
  import opened Wrappers
  import opened Primitives
  import opened Text
  import opened Macros
  import opened Checks

  /** Every option of the [Install] section; `None` means the line is omitted. */
  datatype Install = Install(
    alias: Option<seq<string>>,
    wantedBy: Option<seq<string>>,
    requiredBy: Option<seq<string>>,
    upheldBy: Option<seq<string>>,
    also: Option<seq<string>>,
    defaultInstance: Option<string>
  )

  /** `Install::default()`: every field absent. */
  const DefaultInstall: Install := Install(Option.None, Option.None, Option.None, Option.None, Option.None, Option.None)

  // ---------------------------------------------------------------------------
  // Rendering
  // ---------------------------------------------------------------------------

  /** The formatter invocations of `Display for Install`, in source order. */
  function InstallFields(i: Install): seq<Field> {
    [
      Joined("Alias", i.alias),
      Joined("WantedBy", i.wantedBy),
      Joined("RequiredBy", i.requiredBy),
      Joined("UpheldBy", i.upheldBy),
      Joined("Also", i.also),
      Scalar("DefaultInstance", i.defaultInstance)
    ]
  }

  /** The option lines written below the `[Install]` header. */
  function InstallLines(i: Install): seq<string> {
    FieldsLines(InstallFields(i))
  }

  /** `Display for Install`: the header line, then the option lines. */
  function InstallText(i: Install): string {
    SectionText("[Install]", InstallFields(i))
  }

  method Fmt(i: Install, buf: Formatter)
    modifies buf
    ensures buf.text == old(buf.text) + InstallText(i)
  {
    buf.WriteSection("[Install]", InstallFields(i));
  }

  // ---------------------------------------------------------------------------
  // What the rendering promises
  // ---------------------------------------------------------------------------

  /** The rendering is the header line followed by the option lines. */
  lemma InstallTextShape(i: Install)
    ensures StartsWith(InstallText(i), "[Install]\n")
    ensures InstallText(i) == "[Install]\n" + JoinLines(InstallLines(i))
  {
    SectionTextShape("[Install]", InstallFields(i));
  }

  /** A default `Install` renders its header line alone. */
  lemma DefaultInstallText()
    ensures InstallText(DefaultInstall) == "[Install]\n"
  {
    SilentSection("[Install]", InstallFields(DefaultInstall));
  }

  /**
   * The keys come out in the order Alias, WantedBy, RequiredBy, UpheldBy,
   * Also, DefaultInstance; the five lists each write one space-joined line,
   * or none when absent or empty.
   */
  lemma InstallKeyOrder(i: Install)
    ensures InstallLines(i) ==
      FieldLines(Joined("Alias", i.alias))
      + FieldLines(Joined("WantedBy", i.wantedBy))
      + FieldLines(Joined("RequiredBy", i.requiredBy))
      + FieldLines(Joined("UpheldBy", i.upheldBy))
      + FieldLines(Joined("Also", i.also))
      + FieldLines(Scalar("DefaultInstance", i.defaultInstance))
  {
    var fs := InstallFields(i);
    var a, b, c := FieldLines(fs[0]), FieldLines(fs[1]), FieldLines(fs[2]);
    var d, e, f := FieldLines(fs[3]), FieldLines(fs[4]), FieldLines(fs[5]);
    FieldsLinesFirstThree(fs);
    FieldsLinesStep(fs, 3);
    FieldsLinesStep(fs, 4);
    FieldsLinesStep(fs, 5);
    assert fs[..6] == fs;
  }

  /** One for a list that `write_vec!` writes: present and non-empty. */
  function ListLine(o: Option<seq<string>>): nat {
    if o.Some? && |o.value| > 0 then 1 else 0
  }

  /**
   * Every present list writes one space-joined line and `Some([])` writes
   * none; with `DefaultInstance` that fixes the number of option lines.
   */
  lemma InstallLineCount(i: Install)
    ensures |InstallLines(i)| ==
      ListLine(i.alias) + ListLine(i.wantedBy) + ListLine(i.requiredBy) + ListLine(i.upheldBy)
      + ListLine(i.also) + (if i.defaultInstance.Some? then 1 else 0)
  {
    InstallKeyOrder(i);
    var fs := InstallFields(i);
    assert |FieldLines(fs[0])| == ListLine(i.alias);
    assert |FieldLines(fs[1])| == ListLine(i.wantedBy);
    assert |FieldLines(fs[2])| == ListLine(i.requiredBy);
    assert |FieldLines(fs[3])| == ListLine(i.upheldBy);
    assert |FieldLines(fs[4])| == ListLine(i.also);
    assert |FieldLines(fs[5])| == if i.defaultInstance.Some? then 1 else 0;
  }

  /**
   * With the header, the text holds one newline more than there are option
   * lines, provided no value itself holds a line break.
   */
  lemma InstallNewlineCount(i: Install)
    requires forall p :: 0 <= p < |InstallLines(i)| ==> SingleLine(InstallLines(i)[p])
    ensures multiset(InstallText(i))['\n'] == 1 + |InstallLines(i)|
  {
    var lines := ["[Install]"] + InstallLines(i);
    forall p | 0 <= p < |lines| ensures SingleLine(lines[p]) {
      if p > 0 {
        assert lines[p] == InstallLines(i)[p - 1];
      }
    }
    JoinLinesShape(lines);
  }
}
