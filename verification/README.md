# Cambridge CXA serial amplifier driver — verified model

This project models the protocol adapter of a Home Assistant media-player
driver for a Cambridge CXA61/CXA81 amplifier on a serial line
(`custom_components/cambridge_cxn/media_player.py`). The driver keeps the raw
replies of three queries (power, current source, mute), derives the player's
power state, mute flag and current input from them, lists the inputs and sound
modes, and sends fixed command strings for power, mute, input and sound mode.
Its volume-step methods send nothing (see Findings).

The serial port is replaced by two things: the `written` log of a `Device`
(every string the driver hands to the port, oldest first) and, for each query
of a poll, an `Option<string>` reply (`None` when writing, reading or decoding
raised, which the driver turns into `""`). Everything else is pure data: the
tables are `map<string, string>` constants, the device is an immutable record,
properties are functions of it, and commands return the next record.

Files:

- `results.dfy` — `Option` and `Result`.
- `text.dfy` — Python's `sub in s`, ASCII `str.upper()`, the code-point order
  of `sorted()` on strings, and sorting a dictionary's keys, with their proofs.
- `protocol.dfy` — the fixed query/command/reply strings, the per-variant input
  and reply tables, the sound-mode table, and the choice of variant.
- `driver.dfy` — the device record, the poll, the derived properties, the
  commands, and the lemmas that relate them.

Three behaviours worth noting. An unrecognised type name is not rejected:
every value other than a spelling of "CXA61" selects the CXA81 tables. A
failing command write is logged and swallowed, not reported to the caller.
Volume up and volume down raise before sending their command (see Findings).

## Model

| member | source | states |
|---|---|---|
| Protocol.InputTable | custom_components/cambridge_cxn/media_player.py:73-97 | each variant's input table sends a different command for every input |
| Protocol.ReplyTable | custom_components/cambridge_cxn/media_player.py:99-123 | each variant's reply table names exactly the inputs of that variant's input table, and no two replies name the same input |
| Protocol.SoundModeShape | custom_components/cambridge_cxn/media_player.py:125-129 | the three sound-mode commands are distinct |
| Protocol.SelectVariantSpelling | custom_components/cambridge_cxn/media_player.py:174-180 | the CXA61 tables are chosen exactly for the five-letter spellings of "CXA61" in any letter case; every other type name chooses CXA81 |
| Protocol.SelectVariantExamples | custom_components/cambridge_cxn/media_player.py:174-180 | "cxa61" and "Cxa61" choose CXA61; "CXA81", "CXA61 " and "" choose CXA81 |
| Text.ContainsIffOccurs | custom_components/cambridge_cxn/media_player.py:236 | the substring scan holds exactly when the token occurs at some position of the reply |
| Text.SortKeys | custom_components/cambridge_cxn/media_player.py:232 | sorting a key set yields each key once, in strictly increasing code-point order |
| Text.SortedUnique | custom_components/cambridge_cxn/media_player.py:228-232 | a strictly sorted list is determined by its elements, so the sorted listings do not depend on dictionary order |
| Driver.New | custom_components/cambridge_cxn/media_player.py:165-183 | a new device uses the CXA61 tables exactly when the upper-cased type is "CXA61", and has written nothing |
| Driver.Send | custom_components/cambridge_cxn/media_player.py:191-197 | a fire-and-forget command appends exactly that string to the log and changes no stored reply |
| Driver.Exchange | custom_components/cambridge_cxn/media_player.py:199-206 | a query appends exactly that string to the log and answers the line read, or "" when the exchange raised |
| Driver.FreshDeviceReadings | custom_components/cambridge_cxn/media_player.py:169-173 | before the first poll the device is Off, not muted, and reading the source raises a key error on the initial reply |
| Driver.Update | custom_components/cambridge_cxn/media_player.py:186-189 | a poll writes the power, source and mute queries in that order and stores each reply, or "" for a failed exchange, independently of the others |
| Driver.UpdateForgetsEarlierPoll | custom_components/cambridge_cxn/media_player.py:186-189 | a poll overwrites all three stored replies: the previous ones have no influence on the result |
| Driver.FailedPollReadings | custom_components/cambridge_cxn/media_player.py:199-206 | after a poll whose exchanges all failed the device reads Off, not muted, and the source raises on "" |
| Driver.State | custom_components/cambridge_cxn/media_player.py:234-239 | On exactly when "*G1<CR>" occurs in the stored power reply, Off otherwise |
| Driver.IsVolumeMuted | custom_components/cambridge_cxn/media_player.py:211-216 | muted exactly when "*M1<CR>" occurs in the stored mute reply |
| Driver.KnownReplies | custom_components/cambridge_cxn/media_player.py:142-145 | "*G1<CR>" reads On, "*G0<CR>" Off, "*M1<CR>" muted and "*M0<CR>" not muted |
| Driver.Source | custom_components/cambridge_cxn/media_player.py:222-224 | the source is defined exactly when the stored reply is a key of the active reply table, is then the one input that reply stands for, and otherwise raises a key error carrying the reply |
| Driver.PolledSourceIff | custom_components/cambridge_cxn/media_player.py:222-224 | after a poll the source reads a given input exactly when the source query was answered with that input's reply |
| Driver.SourceA2Quirk | custom_components/cambridge_cxn/media_player.py:101 | only the reply with the trailing space reads as A2; "*S2<CR>" without it raises |
| Driver.SourceList | custom_components/cambridge_cxn/media_player.py:230-232 | the input names of the active table, strictly sorted, each once; the exact list per variant |
| Driver.SoundModeList | custom_components/cambridge_cxn/media_player.py:226-228 | the sound-mode names sorted: ["A", "AB", "B"] |
| Driver.MuteVolume | custom_components/cambridge_cxn/media_player.py:247-251 | writes the mute-on command for true and the mute-off command for false, once; stored replies unchanged |
| Driver.TurnOn | custom_components/cambridge_cxn/media_player.py:259-260 | writes the power-on command once; stored replies unchanged |
| Driver.TurnOff | custom_components/cambridge_cxn/media_player.py:262-263 | writes the power-off command once; stored replies unchanged |
| Driver.SelectSource | custom_components/cambridge_cxn/media_player.py:256-257 | a known input writes its command once; an unknown name raises a key error and writes nothing |
| Driver.SelectSoundMode | custom_components/cambridge_cxn/media_player.py:253-254 | a known sound mode writes its command once; an unknown name raises a key error and writes nothing |
| Driver.SelectThenPollReportsSource | custom_components/cambridge_cxn/media_player.py:256-257 | selecting a listed input and polling a device that acknowledges it makes the source read that input |
| Driver.VolumeUpAsWritten | custom_components/cambridge_cxn/media_player.py:265-266 | volume up raises a missing-attribute error and writes nothing |
| Driver.VolumeDownAsWritten | custom_components/cambridge_cxn/media_player.py:268-269 | volume down raises a missing-attribute error and writes nothing |
| Driver.VolumeUp | custom_components/cambridge_cxn/media_player.py:139 | the intended volume up writes the volume-up command once |
| Driver.VolumeDown | custom_components/cambridge_cxn/media_player.py:140 | the intended volume down writes the volume-down command once |
| Driver.VolumeStepWritesNothing | custom_components/cambridge_cxn/media_player.py:265-269 | the log after a volume step as written differs from the intended one: the volume command is missing |
| Driver.Perform | custom_components/cambridge_cxn/media_player.py:247-269 | a request with a known name appends exactly one string and keeps the stored replies; an unknown name, or a volume step (which raises as written), leaves the device as it was |
| Driver.CommandsKeepReadings | custom_components/cambridge_cxn/media_player.py:191-197 | no command changes power, mute or source readings; only the next poll does |
| Driver.PerformWritesWire | custom_components/cambridge_cxn/media_player.py:191-197 | the string a known request appends is its command string |
| Driver.WireIdentifiesAction | custom_components/cambridge_cxn/media_player.py:73-138 | within a variant every request that completes writes a different string, so each logged write names one request |

## Left out

- Serial I/O: opening the port (9600 baud, 8N1, 0.5 s timeout), `flush`, `write`, `readline` and UTF-8 encoding and decoding become the `written` log and the `Option<string>` replies; a read that times out is simply whatever string the reply parameter holds.
- Driver.Send: a write that raises is swallowed, as in the code; the log records the attempt whether or not the bytes reached the amplifier.
- Driver.Exchange: the same holds for queries: the query is logged as attempted even when its write raised and the answer became "".
- `url_command`: an HTTP call to the paired streamer, never called in this file.
- `setup_platform`, the platform schema, logging and the `hass` handle: host-framework registration and configuration glue.
- `supported_features`: a bitmask of host constants whose values are not visible here; its two branches build the same set.
- The `name` property and the fields `_speakersactive`, `_state`, `_cxnhost` and `_device`: stored but never used by the modelled behaviour.
- Protocol.SelectVariant: `str.upper()` is modelled for ASCII letters only; other characters are left as they are. No non-ASCII character upper-cases to a letter of "CXA61", so the choice of variant is unaffected, but that fact about Unicode is not proved here.
- Concurrency: the host calls the driver from one thread and the code has no locking, so none is modelled.

## Findings

| source | as written | input that shows it | evidently intended | confidence | as-written member | corrected member |
|---|---|---|---|---|---|---|
| custom_components/cambridge_cxn/media_player.py:265-269 | `volume_up` and `volume_down` call `self.command`, which the device object does not define, so they raise before writing, although the volume-step feature is advertised | any call of `volume_up` or `volume_down` | call the fire-and-forget command method, writing the volume-up or volume-down command | not executed; high | Driver.VolumeUpAsWritten, Driver.VolumeDownAsWritten (shown by Driver.VolumeStepWritesNothing) | Driver.VolumeUp, Driver.VolumeDown |
