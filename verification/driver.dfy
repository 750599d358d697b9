/** The amplifier device object with its serial port abstracted: the port is a
    log of the strings written to it, and every reply the port would deliver
    is a parameter. Derived properties are pure readings of the last polled
    replies; commands append to the log. */
module Driver {
  import opened Results
  import opened Text
  import opened Protocol

  /** What a property read or a command raises. */
  datatype Error =
    | KeyError(key: string)         // a dictionary lookup missed
    | AttributeError(name: string)  // the object has no such attribute

  datatype PowerState = On | Off

  /** The device object: the variant fixed at construction, the raw replies of
      the three queries of the last poll, and every string written to the
      serial port so far, oldest first. */
  datatype Device = Device(
    variant: Variant,
    powerReply: string,
    sourceReply: string,
    muteReply: string,
    written: seq<string>)

  /** A command that may raise: the device afterwards and what was raised. */
  datatype Call = Call(after: Device, raised: Option<Error>)

  /** The replies a device holds are left alone: only the log may differ. */
  predicate SamePoll(d: Device, e: Device) {
    d.variant == e.variant && d.powerReply == e.powerReply &&
    d.sourceReply == e.sourceReply && d.muteReply == e.muteReply
  }

  // ---------------------------------------------------------------------------
  // Construction and transport
  // ---------------------------------------------------------------------------

  /** A new device for the configured type name. Opening the port writes
      nothing. */
  function New(cxatype: string): (d: Device)
    ensures d.variant == Cxa61 <==> Upper(cxatype) == "CXA61"
    ensures d.written == []
  {
    Device(SelectVariant(cxatype), "", InitialSourceReply, ReplyMuteOff, [])
  }

  /** Fire-and-forget write of one command. A failing write is swallowed, so
      the caller always goes on; the log records the attempt. */
  function Send(d: Device, command: string): (r: Device)
    ensures SamePoll(r, d)
    ensures r.written == d.written + [command]
  {
    d.(written := d.written + [command])
  }

  /** Writes a query and reads one line. `reply` is the decoded line, or None
      when writing, reading or decoding raised; the answer is then "". */
  function Exchange(d: Device, query: string, reply: Option<string>): (r: (Device, string))
    ensures SamePoll(r.0, d)
    ensures r.0.written == d.written + [query]
    ensures reply.Some? ==> r.1 == reply.value
    ensures reply.None? ==> r.1 == ""
  {
    (Send(d, query), reply.GetOr(""))
  }

  // ---------------------------------------------------------------------------
  // Polling
  // ---------------------------------------------------------------------------

  /** The poll: power, then source, then mute. Each step writes its query and
      stores whatever came back, "" for a failed exchange, and a failed step
      does not stop the ones after it. */
  function Update(d: Device, power: Option<string>, source: Option<string>, mute: Option<string>): (r: Device)
    ensures r.variant == d.variant
    ensures r.powerReply == power.GetOr("")
    ensures r.sourceReply == source.GetOr("")
    ensures r.muteReply == mute.GetOr("")
    ensures r.written == d.written + [GetPowerState, GetCurrentSource, GetMuteState]
  {
    var (d1, p) := Exchange(d, GetPowerState, power);
    var d2 := d1.(powerReply := p);
    var (d3, s) := Exchange(d2, GetCurrentSource, source);
    var d4 := d3.(sourceReply := s);
    var (d5, m) := Exchange(d4, GetMuteState, mute);
    d5.(muteReply := m)
  }

  /** A poll overwrites everything polled before: two devices that differ only
      in their last replies are identical after the same poll. */
  lemma UpdateForgetsEarlierPoll(d: Device, e: Device, power: Option<string>, source: Option<string>, mute: Option<string>)
    requires d.variant == e.variant && d.written == e.written
    ensures Update(d, power, source, mute) == Update(e, power, source, mute)
  {
  }

  // ---------------------------------------------------------------------------
  // Derived properties
  // ---------------------------------------------------------------------------

  /** On exactly when the power-on reply occurs somewhere in the last power
      reply; anything else, the empty reply of a failed read included, is Off. */
  function State(d: Device): (s: PowerState)
    ensures s == On <==> exists i :: OccursAt(d.powerReply, ReplyPowerOn, i)
  {
    ContainsIffOccurs(d.powerReply, ReplyPowerOn);
    if Contains(d.powerReply, ReplyPowerOn) then On else Off
  }

  /** Muted exactly when the mute-on reply occurs somewhere in the last mute
      reply. */
  function IsVolumeMuted(d: Device): (muted: bool)
    ensures muted <==> exists i :: OccursAt(d.muteReply, ReplyMuteOn, i)
  {
    ContainsIffOccurs(d.muteReply, ReplyMuteOn);
    Contains(d.muteReply, ReplyMuteOn)
  }

  /** The current input: the last source reply must be a key of the reply table
      exactly as received; otherwise the lookup raises with that reply. A name
      it reports is always one of the variant's inputs. */
  function Source(d: Device): (r: Result<string, Error>)
    ensures r.Success? <==> d.sourceReply in ReplyTable(d.variant)
    ensures r.Success? ==> r.value in InputTable(d.variant)
    ensures r.Success? ==> d.sourceReply == AckToken(d.variant, r.value)
    ensures r.Failure? ==> r.error == KeyError(d.sourceReply)
  {
    var table := ReplyTable(d.variant);
    if d.sourceReply in table then Success(table[d.sourceReply])
    else Failure(KeyError(d.sourceReply))
  }

  /** The input names for display, sorted; they depend on the variant only. */
  method SourceList(d: Device) returns (names: seq<string>)
    ensures StrictlySorted(names)
    ensures Elems(names) == InputTable(d.variant).Keys
    ensures d.variant == Cxa61 ==> names == ["A1", "A2", "A3", "A4", "Bluetooth", "D1", "D2", "D3", "MP3", "USB"]
    ensures d.variant == Cxa81 ==> names == ["A1", "A2", "A3", "A4", "Bluetooth", "D1", "D2", "D3", "USB", "XLR"]
  {
    names := SortKeys(InputTable(d.variant).Keys);
    match d.variant
    case Cxa61 =>
      SortedCxa61Names();
      SortedUnique(names, ["A1", "A2", "A3", "A4", "Bluetooth", "D1", "D2", "D3", "MP3", "USB"]);
    case Cxa81 =>
      SortedCxa81Names();
      SortedUnique(names, ["A1", "A2", "A3", "A4", "Bluetooth", "D1", "D2", "D3", "USB", "XLR"]);
  }

  /** The sound-mode names for display, sorted. */
  method SoundModeList(d: Device) returns (names: seq<string>)
    ensures StrictlySorted(names)
    ensures Elems(names) == SoundModes.Keys
    ensures names == ["A", "AB", "B"]
  {
    names := SortKeys(SoundModes.Keys);
    assert StrictlySorted(["A", "AB", "B"]);
    assert Elems(["A", "AB", "B"]) == SoundModes.Keys;
    SortedUnique(names, ["A", "AB", "B"]);
  }

  /** A list is strictly sorted when each neighbour pair is. */
  lemma {:induction false} SortedByNeighbours(s: seq<string>)
    requires forall i :: 0 <= i < |s| - 1 ==> Less(s[i], s[i + 1])
    ensures StrictlySorted(s)
    decreases |s|
  {
    if |s| > 1 {
      SortedByNeighbours(s[1..]);
      forall j | 1 < j < |s|
        ensures Less(s[0], s[j])
      {
        assert Less(s[1], s[j]) by {
          assert s[1..][0] == s[1] && s[1..][j - 1] == s[j];
        }
        LessTransitive(s[0], s[1], s[j]);
      }
    }
  }

  lemma SortedCxa61Names()
    ensures StrictlySorted(["A1", "A2", "A3", "A4", "Bluetooth", "D1", "D2", "D3", "MP3", "USB"])
    ensures Elems(["A1", "A2", "A3", "A4", "Bluetooth", "D1", "D2", "D3", "MP3", "USB"]) == InputsCxa61.Keys
  {
    var s := ["A1", "A2", "A3", "A4", "Bluetooth", "D1", "D2", "D3", "MP3", "USB"];
    assert Less(s[0], s[1]) && Less(s[1], s[2]) && Less(s[2], s[3]);
    assert Less(s[3], s[4]) && Less(s[4], s[5]) && Less(s[5], s[6]);
    assert Less(s[6], s[7]) && Less(s[7], s[8]) && Less(s[8], s[9]);
    SortedByNeighbours(s);
  }

  lemma SortedCxa81Names()
    ensures StrictlySorted(["A1", "A2", "A3", "A4", "Bluetooth", "D1", "D2", "D3", "USB", "XLR"])
    ensures Elems(["A1", "A2", "A3", "A4", "Bluetooth", "D1", "D2", "D3", "USB", "XLR"]) == InputsCxa81.Keys
  {
    var s := ["A1", "A2", "A3", "A4", "Bluetooth", "D1", "D2", "D3", "USB", "XLR"];
    assert Less(s[0], s[1]) && Less(s[1], s[2]) && Less(s[2], s[3]);
    assert Less(s[3], s[4]) && Less(s[4], s[5]) && Less(s[5], s[6]);
    assert Less(s[6], s[7]) && Less(s[7], s[8]) && Less(s[8], s[9]);
    SortedByNeighbours(s);
  }

  // ---------------------------------------------------------------------------
  // What the readings say about particular replies
  // ---------------------------------------------------------------------------

  /** Before the first poll a device reads Off, not muted, and its source
      lookup raises, because the initial source reply is no reply key. */
  lemma FreshDeviceReadings(cxatype: string)
    ensures State(New(cxatype)) == Off
    ensures !IsVolumeMuted(New(cxatype))
    ensures Source(New(cxatype)) == Failure(KeyError(InitialSourceReply))
  {
    ShorterLacks("", ReplyPowerOn);
    ShorterLacks(ReplyMuteOff[1..], ReplyMuteOn);
    assert ReplyMuteOff[2] != ReplyMuteOn[2];
    var v := New(cxatype).variant;
    if InitialSourceReply in ReplyTable(v) {
      ReplyKeyShape(v, InitialSourceReply);
    }
  }

  /** A poll whose exchanges all failed leaves the device Off, not muted, and
      with a source lookup that raises on "". */
  lemma FailedPollReadings(d: Device)
    ensures var e := Update(d, None, None, None);
            State(e) == Off && !IsVolumeMuted(e) && Source(e) == Failure(KeyError(""))
  {
    var e := Update(d, None, None, None);
    assert e.powerReply == "" && e.sourceReply == "" && e.muteReply == "";
    ShorterLacks("", ReplyPowerOn);
    ShorterLacks("", ReplyMuteOn);
    if "" in ReplyTable(e.variant) {
      ReplyKeyShape(e.variant, "");
    }
  }

  /** The fixed replies read as their names say. */
  lemma KnownReplies(d: Device)
    ensures d.powerReply == ReplyPowerOn ==> State(d) == On
    ensures d.powerReply == ReplyPowerStandby ==> State(d) == Off
    ensures d.muteReply == ReplyMuteOn ==> IsVolumeMuted(d)
    ensures d.muteReply == ReplyMuteOff ==> !IsVolumeMuted(d)
  {
    ShorterLacks(ReplyPowerStandby[1..], ReplyPowerOn);
    assert ReplyPowerStandby[2] != ReplyPowerOn[2];
    ShorterLacks(ReplyMuteOff[1..], ReplyMuteOn);
    assert ReplyMuteOff[2] != ReplyMuteOn[2];
  }

  /** The reply that reports input `name` on variant `v`. */
  ghost function AckToken(v: Variant, name: string): (token: string)
    requires name in InputTable(v)
    ensures token in ReplyTable(v) && ReplyTable(v)[token] == name
  {
    var token :| token in ReplyTable(v) && ReplyTable(v)[token] == name; token
  }

  /** After a poll, the source reads `name` exactly when the source query was
      answered with `name`'s reply, whatever the other two answers were. */
  lemma PolledSourceIff(d: Device, power: Option<string>, reply: string, mute: Option<string>, name: string)
    requires name in InputTable(d.variant)
    ensures Source(Update(d, power, Some(reply), mute)) == Success(name) <==> reply == AckToken(d.variant, name)
  {
  }

  /** Selecting a listed input and then polling a device that acknowledges it
      makes the source read that input. */
  lemma SelectThenPollReportsSource(d: Device, name: string, power: Option<string>, mute: Option<string>)
    requires name in InputTable(d.variant)
    ensures SelectSource(d, name).raised == None
    ensures Source(Update(SelectSource(d, name).after, power, Some(AckToken(d.variant, name)), mute)) == Success(name)
  {
  }

  /** The A2 reply key keeps its trailing space: only the spaced reply reads as
      A2, and the reply without the space raises. */
  lemma SourceA2Quirk(d: Device)
    ensures d.sourceReply == "*S2<CR> " ==> Source(d) == Success("A2")
    ensures d.sourceReply == "*S2<CR>" ==> Source(d) == Failure(KeyError("*S2<CR>"))
  {
    var k := "*S2<CR>";
    if k in ReplyTable(d.variant) {
      ReplyKeyShape(d.variant, k);
    }
  }

  // ---------------------------------------------------------------------------
  // Commands
  // ---------------------------------------------------------------------------

  /** Writes the mute-on command for `true` and the mute-off command for
      `false`; nothing else changes. */
  function MuteVolume(d: Device, mute: bool): (r: Device)
    ensures SamePoll(r, d)
    ensures r.written == d.written + [if mute then SetMuteOn else SetMuteOff]
  {
    if mute then Send(d, SetMuteOn) else Send(d, SetMuteOff)
  }

  function TurnOn(d: Device): (r: Device)
    ensures SamePoll(r, d)
    ensures r.written == d.written + [SetPowerOn]
  {
    Send(d, SetPowerOn)
  }

  function TurnOff(d: Device): (r: Device)
    ensures SamePoll(r, d)
    ensures r.written == d.written + [SetPowerOff]
  {
    Send(d, SetPowerOff)
  }

  /** Selects an input by name. An unknown name raises from the table lookup
      before anything is written. */
  function SelectSource(d: Device, name: string): (r: Call)
    ensures SamePoll(r.after, d)
    ensures r.raised == None <==> name in InputTable(d.variant)
    ensures r.raised == None ==> r.after.written == d.written + [InputTable(d.variant)[name]]
    ensures r.raised != None ==> r.raised == Some(KeyError(name)) && r.after == d
  {
    var table := InputTable(d.variant);
    if name in table then Call(Send(d, table[name]), None)
    else Call(d, Some(KeyError(name)))
  }

  /** Selects a sound mode by name. An unknown name raises from the table
      lookup before anything is written. */
  function SelectSoundMode(d: Device, name: string): (r: Call)
    ensures SamePoll(r.after, d)
    ensures r.raised == None <==> name in SoundModes
    ensures r.raised == None ==> r.after.written == d.written + [SoundModes[name]]
    ensures r.raised != None ==> r.raised == Some(KeyError(name)) && r.after == d
  {
    if name in SoundModes then Call(Send(d, SoundModes[name]), None)
    else Call(d, Some(KeyError(name)))
  }

  /** Volume up as the driver has it: it calls a `command` method the object
      does not have, so it raises before writing anything. */
  function VolumeUpAsWritten(d: Device): (r: Call)
    ensures r.after == d && r.raised == Some(AttributeError("command"))
  {
    Call(d, Some(AttributeError("command")))
  }

  function VolumeDownAsWritten(d: Device): (r: Call)
    ensures r.after == d && r.raised == Some(AttributeError("command"))
  {
    Call(d, Some(AttributeError("command")))
  }

  /** Volume up as evidently intended: it writes the volume-up command. */
  function VolumeUp(d: Device): (r: Device)
    ensures SamePoll(r, d)
    ensures r.written == d.written + [SetVolumeUp]
  {
    Send(d, SetVolumeUp)
  }

  function VolumeDown(d: Device): (r: Device)
    ensures SamePoll(r, d)
    ensures r.written == d.written + [SetVolumeDown]
  {
    Send(d, SetVolumeDown)
  }

  /** The volume step the driver advertises never reaches the port: the log
      after either step as written lacks the command the intended step adds. */
  lemma VolumeStepWritesNothing(d: Device)
    ensures VolumeUpAsWritten(d).after.written != VolumeUp(d).written
    ensures VolumeDownAsWritten(d).after.written != VolumeDown(d).written
    ensures |VolumeUp(d).written| == |VolumeUpAsWritten(d).after.written| + 1
    ensures |VolumeDown(d).written| == |VolumeDownAsWritten(d).after.written| + 1
  {
    assert |VolumeUp(d).written| == |d.written| + 1;
    assert |VolumeDown(d).written| == |d.written| + 1;
  }

  // ---------------------------------------------------------------------------
  // All commands together
  // ---------------------------------------------------------------------------

  /** A request a caller can make of the device. */
  datatype Action =
    | PowerOn
    | PowerOff
    | SetMute(on: bool)
    | PickSource(name: string)
    | PickSoundMode(name: string)
    | StepVolume(up: bool)

  /** Whether the request completes without raising: its name is in the
      device's tables, and it is not a volume step, which raises as written. */
  predicate Known(v: Variant, a: Action) {
    match a
    case PickSource(name) => name in InputTable(v)
    case PickSoundMode(name) => name in SoundModes
    case StepVolume(_) => false
    case _ => true
  }

  /** Performs a request as the driver does. A known request writes exactly
      one string and leaves the polled replies alone; any other request raises
      and writes nothing. */
  function Perform(d: Device, a: Action): (r: Call)
    ensures SamePoll(r.after, d)
    ensures r.raised == None <==> Known(d.variant, a)
    ensures r.raised == None ==>
              |r.after.written| == |d.written| + 1 && r.after.written[..|d.written|] == d.written
    ensures r.raised != None ==> r.after == d
  {
    match a
    case PowerOn => Call(TurnOn(d), None)
    case PowerOff => Call(TurnOff(d), None)
    case SetMute(on) => Call(MuteVolume(d, on), None)
    case PickSource(name) => SelectSource(d, name)
    case PickSoundMode(name) => SelectSoundMode(d, name)
    case StepVolume(up) => if up then VolumeUpAsWritten(d) else VolumeDownAsWritten(d)
  }

  /** A command changes no reading: power, mute and source keep what the last
      poll said until the next poll. */
  lemma CommandsKeepReadings(d: Device, a: Action)
    ensures State(Perform(d, a).after) == State(d)
    ensures IsVolumeMuted(Perform(d, a).after) == IsVolumeMuted(d)
    ensures Source(Perform(d, a).after) == Source(d)
  {
  }

  /** The string a known request writes. */
  function Wire(v: Variant, a: Action): string
    requires Known(v, a)
  {
    match a
    case PowerOn => SetPowerOn
    case PowerOff => SetPowerOff
    case SetMute(on) => if on then SetMuteOn else SetMuteOff
    case PickSource(name) => InputTable(v)[name]
    case PickSoundMode(name) => SoundModes[name]
    case StepVolume(_) => assert false; ""
  }

  /** What a known request appends to the log is its wire string. */
  lemma PerformWritesWire(d: Device, a: Action)
    requires Known(d.variant, a)
    ensures Perform(d, a).after.written == d.written + [Wire(d.variant, a)]
  {
  }

  /** Every known request of a variant writes a different string, so the log
      tells which request each write came from. */
  lemma WireIdentifiesAction(v: Variant, a: Action, b: Action)
    requires Known(v, a) && Known(v, b)
    ensures Wire(v, a) == Wire(v, b) ==> a == b
  {
    if Wire(v, a) == Wire(v, b) {
      if a.PickSource? {
        InputCommandShape(v, a.name);
      }
      if b.PickSource? {
        InputCommandShape(v, b.name);
      }
      assert SetPowerOn[13] == SetPowerOff[13] == '1' && SetVolumeUp[13] == SetVolumeDown[13] == '9';
      assert SetPowerOn[19] == '2' && SetPowerOff[19] == '1';
      assert SetVolumeUp[19] == '1' && SetVolumeDown[19] == '2';
      assert SetMuteOn[22] == '2' && SetMuteOff[22] == '1';
      SoundModeShape();
    }
  }
}
