/** The amplifier's command vocabulary: the fixed query, command and reply
    strings, the per-variant input tables, the sound-mode table, and the choice
    of variant from the configured type name. */
module Protocol {
  import opened Text

  // ---------------------------------------------------------------------------
  // Fixed strings
  // ---------------------------------------------------------------------------

  const GetPowerState := "52,20,31,20,31,0D"
  const GetCurrentSource := "52,20,31,20,32,0D"
  const GetMuteState := "52,20,31,20,31,30,0D"

  const SetMuteOn := "57,20,31,20,31,30,20,32,0D"
  const SetMuteOff := "57,20,31,20,31,30,20,31,0D"
  const SetPowerOn := "57,20,31,20,31,20,32,0D"
  const SetPowerOff := "57,20,31,20,31,20,31,0D"
  const SetVolumeUp := "57,20,31,20,39,20,31,0D"
  const SetVolumeDown := "57,20,31,20,39,20,32,0D"

  const ReplyPowerOn := "*G1<CR>"
  const ReplyPowerStandby := "*G0<CR>"
  const ReplyMuteOn := "*M1<CR>"
  const ReplyMuteOff := "*M0<CR>"

  /** What a new device holds as its last source reply before any poll: a
      query-shaped string that is not a reply the tables know. */
  const InitialSourceReply := "52,20,31,20,31,33,0D"

  // ---------------------------------------------------------------------------
  // Tables
  // ---------------------------------------------------------------------------

  datatype Variant = Cxa61 | Cxa81

  /** Input name -> the command that selects it. */
  const InputsCxa61: map<string, string> := map[
    "A1" := "57,20,31,20,32,20,36,0D",
    "A2" := "57,20,31,20,32,20,37,0D",
    "A3" := "57,20,31,20,32,20,38,0D",
    "A4" := "#03,04,03",
    "D1" := "#03,04,04",
    "D2" := "#03,04,05",
    "D3" := "#03,04,06",
    "Bluetooth" := "#03,04,14",
    "USB" := "#03,04,16",
    "MP3" := "#03,04,10"
  ]

  const InputsCxa81: map<string, string> := map[
    "A1" := "#03,04,00",
    "A2" := "#03,04,01",
    "A3" := "#03,04,02",
    "A4" := "#03,04,03",
    "D1" := "#03,04,04",
    "D2" := "#03,04,05",
    "D3" := "#03,04,06",
    "Bluetooth" := "#03,04,14",
    "USB" := "#03,04,16",
    "XLR" := "#03,04,20"
  ]

  /** Source reply -> input name. The key for A2 carries a trailing space,
      kept exactly as the device table has it. */
  const RepliesCxa61: map<string, string> := map[
    "*S1<CR>" := "A1",
    "*S2<CR> " := "A2",
    "*S3<CR>" := "A3",
    "#04,01,03" := "A4",
    "#04,01,04" := "D1",
    "#04,01,05" := "D2",
    "#04,01,06" := "D3",
    "#04,01,14" := "Bluetooth",
    "#04,01,16" := "USB",
    "#04,01,10" := "MP3"
  ]

  const RepliesCxa81: map<string, string> := map[
    "*S1<CR>" := "A1",
    "*S2<CR> " := "A2",
    "*S3<CR>" := "A3",
    "#04,01,03" := "A4",
    "#04,01,04" := "D1",
    "#04,01,05" := "D2",
    "#04,01,06" := "D3",
    "#04,01,14" := "Bluetooth",
    "#04,01,16" := "USB",
    "#04,01,20" := "XLR"
  ]

  /** Sound-mode name -> the command that selects it; shared by both variants. */
  const SoundModes: map<string, string> := map[
    "A" := "#1,25,0",
    "AB" := "#1,25,1",
    "B" := "#1,25,2"
  ]

  /** No two keys share a value. */
  predicate Injective(m: map<string, string>) {
    forall a, b :: a in m && b in m && a != b ==> m[a] != m[b]
  }

  // The facts below are proved per table: each distinctness proof compares the
  // last four characters of two commands, where they always differ.

  lemma InputsCxa61Injective()
    ensures Injective(InputsCxa61)
  {
    var m := InputsCxa61;
    forall a, b | a in m && b in m && a != b
      ensures m[a] != m[b]
    {
      assert m[a][|m[a]| - 4..] != m[b][|m[b]| - 4..];
    }
  }

  lemma InputsCxa81Injective()
    ensures Injective(InputsCxa81)
  {
    var m := InputsCxa81;
    forall a, b | a in m && b in m && a != b
      ensures m[a] != m[b]
    {
      assert m[a][|m[a]| - 4..] != m[b][|m[b]| - 4..];
    }
  }

  lemma RepliesCxa61Injective()
    ensures Injective(RepliesCxa61)
  {
    forall a, b | a in RepliesCxa61 && b in RepliesCxa61 && a != b
      ensures RepliesCxa61[a] != RepliesCxa61[b]
    {
    }
  }

  lemma RepliesCxa81Injective()
    ensures Injective(RepliesCxa81)
  {
    forall a, b | a in RepliesCxa81 && b in RepliesCxa81 && a != b
      ensures RepliesCxa81[a] != RepliesCxa81[b]
    {
    }
  }

  lemma RepliesCxa61NameInputs()
    ensures RepliesCxa61.Values <= InputsCxa61.Keys
  {
    forall n | n in RepliesCxa61.Values
      ensures n in InputsCxa61
    {
      var k :| k in RepliesCxa61 && RepliesCxa61[k] == n;
    }
  }

  lemma RepliesCxa61Cover()
    ensures RepliesCxa61.Values == InputsCxa61.Keys
  {
    RepliesCxa61NameInputs();
    var m := RepliesCxa61;
    assert m["*S1<CR>"] in m.Values;
    assert m["*S2<CR> "] in m.Values;
    assert m["*S3<CR>"] in m.Values;
    assert m["#04,01,03"] in m.Values;
    assert m["#04,01,04"] in m.Values;
    assert m["#04,01,05"] in m.Values;
    assert m["#04,01,06"] in m.Values;
    assert m["#04,01,14"] in m.Values;
    assert m["#04,01,16"] in m.Values;
    assert m["#04,01,10"] in m.Values;
  }

  lemma RepliesCxa81NameInputs()
    ensures RepliesCxa81.Values <= InputsCxa81.Keys
  {
    forall n | n in RepliesCxa81.Values
      ensures n in InputsCxa81
    {
      var k :| k in RepliesCxa81 && RepliesCxa81[k] == n;
    }
  }

  lemma RepliesCxa81Cover()
    ensures RepliesCxa81.Values == InputsCxa81.Keys
  {
    RepliesCxa81NameInputs();
    var m := RepliesCxa81;
    assert m["*S1<CR>"] in m.Values;
    assert m["*S2<CR> "] in m.Values;
    assert m["*S3<CR>"] in m.Values;
    assert m["#04,01,03"] in m.Values;
    assert m["#04,01,04"] in m.Values;
    assert m["#04,01,05"] in m.Values;
    assert m["#04,01,06"] in m.Values;
    assert m["#04,01,14"] in m.Values;
    assert m["#04,01,16"] in m.Values;
    assert m["#04,01,20"] in m.Values;
  }

  /** The shape of a reply key: 7 to 9 characters long, and the
      7-character ones are "*S1<CR>" and "*S3<CR>". */
  predicate ReplyKeyShaped(key: string) {
    7 <= |key| <= 9 && (|key| == 7 ==> key[2] == '1' || key[2] == '3')
  }

  lemma RepliesCxa61Shaped()
    ensures forall key :: key in RepliesCxa61 ==> ReplyKeyShaped(key)
  {
  }

  lemma RepliesCxa81Shaped()
    ensures forall key :: key in RepliesCxa81 ==> ReplyKeyShaped(key)
  {
  }

  lemma ReplyKeyShape(v: Variant, key: string)
    requires key in ReplyTable(v)
    ensures 7 <= |key| <= 9
    ensures |key| == 7 ==> key[2] == '1' || key[2] == '3'
  {
    RepliesCxa61Shaped();
    RepliesCxa81Shaped();
    assert ReplyKeyShaped(key);
  }

  /** Input commands are either 9 characters starting with '#', or 23
      characters with '2' where the fixed power and volume commands have '1'
      or '9'. */
  lemma InputCommandShape(v: Variant, name: string)
    requires name in InputTable(v)
    ensures var c := InputTable(v)[name];
            (|c| == 9 && c[0] == '#') || (|c| == 23 && c[13] == '2')
  {
    match v
    case Cxa61 =>
      var c := InputsCxa61[name];
      assert (|c| == 9 && c[0] == '#') || (|c| == 23 && c[13] == '2');
    case Cxa81 =>
      var c := InputsCxa81[name];
      assert |c| == 9 && c[0] == '#';
  }

  /** Sound-mode commands are 7 characters long and pairwise distinct. */
  lemma SoundModeShape()
    ensures forall name :: name in SoundModes ==> |SoundModes[name]| == 7
    ensures Injective(SoundModes)
  {
    forall a, b | a in SoundModes && b in SoundModes && a != b
      ensures SoundModes[a] != SoundModes[b]
    {
      assert SoundModes[a][6] != SoundModes[b][6];
    }
  }

  /** The input table of a variant. Its commands are pairwise distinct, so a
      written command names one input. */
  function InputTable(v: Variant): (m: map<string, string>)
    ensures Injective(m)
  {
    match v
    case Cxa61 => InputsCxa61Injective(); InputsCxa61
    case Cxa81 => InputsCxa81Injective(); InputsCxa81
  }

  /** The reply table of a variant: every input of the variant is reported by
      exactly one reply, and every reply names an input of the variant. */
  function ReplyTable(v: Variant): (m: map<string, string>)
    ensures m.Values == InputTable(v).Keys
    ensures Injective(m)
  {
    match v
    case Cxa61 => RepliesCxa61Cover(); RepliesCxa61Injective(); RepliesCxa61
    case Cxa81 => RepliesCxa81Cover(); RepliesCxa81Injective(); RepliesCxa81
  }

  // ---------------------------------------------------------------------------
  // Variant selection
  // ---------------------------------------------------------------------------

  /** The configured type picks the CXA61 tables when its upper-case form is
      "CXA61"; every other value picks the CXA81 tables. */
  function SelectVariant(cxatype: string): Variant {
    if Upper(cxatype) == "CXA61" then Cxa61 else Cxa81
  }

  /** The CXA61 tables are chosen exactly for the five-character spellings of
      "CXA61" in any mix of letter case. */
  lemma SelectVariantSpelling(cxatype: string)
    ensures SelectVariant(cxatype) == Cxa61 <==>
              |cxatype| == 5 &&
              forall i :: 0 <= i < 5 ==> cxatype[i] == "CXA61"[i] || cxatype[i] == "cxa61"[i]
  {
    if |cxatype| == 5 {
      forall i | 0 <= i < 5 {
        UpperCharPreimage(cxatype[i], "CXA61"[i]);
      }
      if forall i :: 0 <= i < 5 ==> cxatype[i] == "CXA61"[i] || cxatype[i] == "cxa61"[i] {
        assert Upper(cxatype) == "CXA61";
      }
    }
  }

  /** Some spellings and their choice. */
  lemma SelectVariantExamples()
    ensures SelectVariant("CXA61") == Cxa61
    ensures SelectVariant("cxa61") == Cxa61
    ensures SelectVariant("Cxa61") == Cxa61
    ensures SelectVariant("CXA81") == Cxa81
    ensures SelectVariant("cxa81") == Cxa81
    ensures SelectVariant("CXA61 ") == Cxa81
    ensures SelectVariant("") == Cxa81
  {
    SelectVariantSpelling("CXA61");
    SelectVariantSpelling("cxa61");
    SelectVariantSpelling("Cxa61");
    SelectVariantSpelling("CXA81");
    assert "CXA81"[3] != "CXA61"[3] && "CXA81"[3] != "cxa61"[3];
    SelectVariantSpelling("cxa81");
    assert "cxa81"[3] != "CXA61"[3] && "cxa81"[3] != "cxa61"[3];
    SelectVariantSpelling("CXA61 ");
    SelectVariantSpelling("");
  }
}
