# audio-tool core in Dafny

This project models the core of `audio-tool`, a command-line utility for ALSA
sound cards built on tinyalsa, and proves properties of that model. It covers
the control-handling half and the synthesis half of the tool.

The control-handling half:

- **the mixer cache** (mixer_cache.c/.h): a snapshot of every mixer control in
  a fixed-size descriptor. It has a value union, a cap of MAX_NUM_VALUES
  values, touch flags and an audit of them. Applying the snapshot writes the
  values back.
- **the card modules** (module.c/.h): modules register into a list, and a
  lookup by type finds one by name or by probe.
- **the HDMI card module** (card-hdmi.c).
- **the OMAP4/5 defaults reconciler** (card-omap-common-4-5.h): the 79-entry
  default table, and `get_mixer_defaults`, which copies a default into each
  live control that has one and audits coverage on both sides.
- **the `config` command** (config_cmd.c).
- **the `save` and `restore` commands** (save.c, restore.c): a tab-separated
  dump of every control, and reading it back line by line and field by field
  into set calls on a linked list of controls (the "mixer_db").
- **the round trip**: restoring what `save` wrote sets every saved value back
  and touches every control.

The synthesis half:

- **the integer wavetable oscillator** (oscillator-table.c/.h), which is the
  same code as `render` in tone-generator.c. It does a 32-bit byte-chunk long
  division for the table phase, wraps it with the mask, interpolates between
  neighbouring samples with a "water-down" shift, scales by the volume and
  interleaves channels.
- **tone-generator's setup**: the table list, `check_wave_tables`, the table
  search with its power-of-two asserts, the `bits` guard, and `inner_main`'s
  period loop.
- **generate-wave-table**: the square-wave generator, the argument checks, and
  the chunk loop that tiles the table through a 4096-byte buffer.

Some things are parameters rather than modelled:

- Hardware and the C library outside the core are parameters:
  - a mixer is a sequence of optional controls;
  - set calls and PCM writes are returned as values, not performed;
  - file contents are strings;
  - allocation, open and ready outcomes are booleans.
- C integer widths are written out explicitly through the `CInt` module:
  - `uint32_t` wrap-around;
  - the signed reading of an unsigned value;
  - `size_t`;
  - truncating division.
- Updates in place keep their form:
  - the mixer cache is a class over an array;
  - the mixer_db and the module list are classes whose node sequence is
    reassigned;
  - `oscillator_table_render` and the generators write into arrays, in loops
    with their invariants.

Where the code's behaviour evidently differs from its intent, the code as
written is modelled next to the evident intent, and the intended behaviour is
proved about the corrected version (see "Findings").

## Model

| member | source | states |
|---|---|---|
| MixerCache.Cache.FromTable | mixer_cache.h:78-81 | A cache built over a table holds exactly those entries, with `count` equal to their number. |
| MixerCache.Init | mixer_cache.c:45-53 | NULL gives EINVAL. Otherwise the result is 0 and the cache is empty: count 0, no entries. |
| MixerCache.CappedCount | mixer_cache.c:101-103 | The stored value count is the control's count, cut to MAX_NUM_VALUES (8). It never exceeds either. |
| MixerCache.CapturedValue | mixer_cache.c:104-124 | The union read holds the member of the control's type (zeroed for other types) with eight slots, every label shorter than its 64-byte buffer and every BYTE value within 8 bits. |
| MixerCache.Captured | mixer_cache.c:98-124 | A captured descriptor is always well-formed: an unsigned id, a name that fits its 128-byte buffer, at most 8 values, and the member of its type. |
| MixerCache.Snapshot | mixer_cache.c:90-125 | The snapshot of a readable mixer has one descriptor per control. |
| MixerCache.FirstUnreadable | mixer_cache.c:91-96 | Finds the first control with a NULL handle or name; when there is none, every control is readable. |
| MixerCache.Populate | mixer_cache.c:64-128 | Gives EINVAL for a NULL cache or mixer. It sets count, gives -ENOMEM when the allocation fails, and ENODEV at the first unreadable control (earlier descriptors filled, later ones zero). Otherwise it returns 0 with the cache equal to the snapshot. |
| MixerCache.ReadValues | mixer_cache.c:104-124 | The per-slot switch fills exactly the union CapturedValue describes. |
| MixerCache.SnapshotShape | mixer_cache.c:98-103 | Snapshot entry n has id n, the control's name and type, at most 8 values, and no touch. |
| MixerCache.EntryWrites | mixer_cache.c:139-157 | One set call per stored value for a handled type, none for an unhandled one. |
| MixerCache.Apply | mixer_cache.c:130-161 | The calls are those of every entry in index order, slot order within each. The result is 1 exactly when some entry of an unhandled type has values, else 0. |
| MixerCache.AllWritesNext | mixer_cache.c:136-158 | Adding entry n appends exactly its calls and updates the "unhandled" flag. |
| MixerCache.EntryRestores | mixer_cache.c:139-153 | Applying a captured descriptor sets each captured slot back to the value read. |
| MixerCache.ApplySnapshotRestores | mixer_cache.c:90-158 | Applying a fresh snapshot replays every readable control's captured values, control by control. |
| MixerCache.FirstNamed | mixer_cache.c:172-175 | The first entry with the name, or none when no entry has it. |
| MixerCache.GetIdByName | mixer_cache.c:163-178 | NULL cache or name gives -EINVAL. A name found gives the first match's id as `int`; a name not found gives -ENODEV. |
| MixerCache.FirstNamedIs | mixer_cache.c:172-175 | An entry with the name and none before it is what the lookup returns. |
| MixerCache.LookupYieldsPosition | mixer_cache.h:54-55 | When ids are positions, a hit is a non-negative position and a miss is negative, as the header promises. |
| MixerCache.ClearedTouch | mixer_cache.c:187-189 | Every entry kept, with its touch flag cleared. |
| MixerCache.ResetTouch | mixer_cache.c:180-190 | Clears every flag and changes nothing else. NULL is a no-op. |
| MixerCache.TouchGuardAdmitsEnd | mixer_cache.c:196-201 | The guard as written lets id == count through, which is not an index of the array. |
| MixerCache.TouchedAt | mixer_cache.c:201 | Only entry `id` gains its flag; nothing else changes. |
| MixerCache.Touch | mixer_cache.c:192-202 | Flags entry `id` when it indexes the cache and changes nothing otherwise. NULL is a no-op. |
| MixerCache.TouchGuardsAgree | mixer_cache.c:196-199 | Except at id == count, the written guard admits exactly the ids in range. |
| MixerCache.Untouched | mixer_cache.c:212-220 | The verbose report is empty exactly when every entry is touched. |
| MixerCache.AuditTouch | mixer_cache.c:204-223 | NULL gives EINVAL. Otherwise 0 exactly when all entries are touched, else 1; when verbose, the report lists the untouched entries. |
| MixerCache.ResetThenAuditIncomplete | mixer_cache.c:180-223 | Right after a reset, an audit of a non-empty cache fails. |
| ModuleRegistry.Lookup | module.c:84-109 | Type 0 or above the maximum finds nothing. Otherwise the first module of the type whose name equals the given one, or with no name given the first whose probe returns 0. With a valid type, finding nothing means no module qualifies. |
| ModuleRegistry.FirstSelected | module.c:92-103 | The first module that qualifies, or none when no module does. |
| ModuleRegistry.Registry.constructor | module.c:48 | The list starts empty. |
| ModuleRegistry.Registry.Register | module.c:61-82 | A NULL module gives EINVAL and ENOMEM gives ENOMEM, both with the list unchanged. Otherwise the result is 0 and the module is appended at the end. |
| ModuleRegistry.Registry.GetModule | module.c:84-109 | Returns the module Lookup selects, or NULL. |
| ModuleRegistry.PushBack | module.c:50-59 | A NULL list is left alone. Otherwise the walk along `next` reaches the last node and the node is linked behind all existing nodes. |
| ModuleRegistry.FirstSelectedIs | module.c:92-103 | A qualifying module with none before it is the one the walk returns. |
| ModuleRegistry.LookupAfterRegister | module.c:61-109 | Registering never changes an answer already found. It answers a lookup that found nothing only when the new module qualifies. |
| ModuleRegistry.NoneSelected | module.c:92-108 | When no module qualifies, the walk returns NULL. |
| ModuleRegistry.LookupByOwnName | module.c:96-98 | A registered module's own type and name find it or an earlier namesake. |
| CardHdmi.FindCardByName | card-hdmi.c:74 | A non-negative result is the first card of that name. Otherwise the result is -ENODEV and no card has the name. |
| CardHdmi.Probe | card-hdmi.c:70-81 | 0 exactly when a card named "HDMI" exists, else ENODEV. |
| CardHdmi.GetMixerDefaults | card-hdmi.c:53-66 | 0 exactly when the cache is empty, else 1 (there are no defaults to restore). |
| CardHdmi.GetFeBeNames | card-hdmi.c:83-86 | Always ENODEV. |
| CardHdmi.Config | card-hdmi.c:88-92 | Always ENODEV. |
| CardHdmi.HdmiModule | card-hdmi.c:94-101 | The registered module: card type, the name "HDMI", the probe above, and the ENODEV stubs. |
| CardHdmi.HdmiFoundByName | card-hdmi.c:103-112 | Once registered, a lookup by the name "HDMI" always succeeds. Without the card, a probe lookup answers as before. |
| ConfigCmd.ParseDirection | config_cmd.c:146-154 | "play" gives playback, "cap" gives capture, and anything else is refused. Both directions of each are stated. |
| ConfigCmd.ParseEnable | config_cmd.c:156-164 | "1"/"enable" give 1, "0"/"disable" give 0, and anything else is refused. |
| ConfigCmd.FindName | config_cmd.c:193-201 | The NULL-terminated scan finds the argument exactly when it is listed. |
| ConfigCmd.MissingModuleReportedAsSuccess | config_cmd.c:173-179 | On the missing-module path, the command as written returns 0 with no calls; the fixed command returns ENODEV with no calls. |
| ConfigCmd.FixOnlyChangesMissingModule | config_cmd.c:123-227 | Off the missing-module path, the written and the fixed command give the same result and calls. |
| ConfigCmd.FixedSuccessConfigures | config_cmd.c:181-226 | With the fix, a request with `argc` of at least 5 that returns 0 has queried the names, opened the mixer and called `config` with the request. |
| ConfigCmd.AsWrittenSuccessWithoutConfig | config_cmd.c:173-179 | As written, a valid request for a card without a module returns 0 and calls nothing. |
| ConfigCmd.ConfigCmdMain | config_cmd.c:123-227 | Its result and calls are ConfigOutcome as written; see the list after this table. |
| OmapCommon.Numbers | card-omap-common-4-5.h:129-131 | An `integer` initialiser: the listed values, then zeros. |
| OmapCommon.Labels | card-omap-common-4-5.h:57-62 | An `enumerated` initialiser: the listed labels, then empty strings. |
| OmapCommon.DefaultsShape | card-omap-common-4-5.h:51-851 | There are 79 defaults. Each is a well-formed BOOL, INT or ENUM descriptor with one or two values and id -1. |
| OmapCommon.DefaultPositions | card-omap-common-4-5.h:51-851 | Each default's name is known at its own position. |
| OmapCommon.DefaultNamesDistinct | card-omap-common-4-5.h:51-851 | No two defaults share a name. |
| OmapCommon.DefaultFoundByName | card-omap-common-4-5.h:51-851 | Looking up default i's name finds default i. |
| OmapCommon.LookupAsWrittenIsMinusOne | card-omap-common-4-5.h:53 | As written, every hit in the table returns id -1. |
| OmapCommon.AsWrittenIndexOutOfRange | card-omap-common-4-5.h:868-870 | -1 and -ENODEV stored in `size_t n` are far past the 79 entries, and `n < 0` is never true. |
| OmapCommon.Numbered | card-omap-common-4-5.h:853-856 | The table with ids replaced by positions, all else kept. |
| OmapCommon.NumberedFits | card-omap-common-4-5.h:853-856 | Renumbering keeps every descriptor well-formed. |
| OmapCommon.CardMixDefaultsShape | card-omap-common-4-5.h:853-856 | The intended `g_card_mix_defaults`: 79 well-formed entries with ids 0..78, each equal to the table entry apart from its id. |
| OmapCommon.NumberedLookupIsPosition | card-omap-common-4-5.h:868-870 | In the renumbered table, every hit's id is its position. |
| OmapCommon.MatchOf | card-omap-common-4-5.h:868-879 | A live control's default is the first of its name, only if the type agrees. Having none means either no default has the name or the first one has another type. |
| OmapCommon.ReconciledLive | card-omap-common-4-5.h:867-885 | After the pass, each live entry carries its default's value and is touched when it matched, otherwise it is unchanged with a cleared flag. |
| OmapCommon.ReconciledDefaults | card-omap-common-4-5.h:864-885 | After the pass, each default is touched exactly when some live entry claimed it. |
| OmapCommon.AuditResult | card-omap-common-4-5.h:887-888 | An audit gives 0 exactly when every entry is touched, else 1. |
| OmapCommon.IntendedVerdict | card-omap-common-4-5.h:887-888 | The intended verdict is 0 exactly when everything matched and both audits pass. |
| OmapCommon.VerdictAsWrittenInverted | card-omap-common-4-5.h:887-888 | As written, full coverage on either side forces 1. When both sides miss something, the loop's flag decides alone. |
| OmapCommon.PerfectMatchReportedAsFailure | card-omap-common-4-5.h:858-891 | A one-control perfect reconciliation returns 1 as written, but the intended verdict is 0. |
| OmapCommon.GetMixerDefaults | card-omap-common-4-5.h:858-891 | Both caches end as the reconciled live and reconciled default entries, and the result is the written verdict of the loop flag and the two audits. |
| OmapCommon.ReconcileAll | card-omap-common-4-5.h:867-885 | The loop over cleared flags yields the reconciled entries, and 1 exactly when some live control found no default. |
| OmapCommon.ReconcileEntry | card-omap-common-4-5.h:868-884 | One iteration: it reports a match exactly when MatchOf finds one. It copies the value and touches both sides on a match, and otherwise touches nothing. |
| OmapCommon.StepFlags | card-omap-common-4-5.h:867-885 | Each iteration adds its miss to the flag and its claim to the defaults' flags. |
| OmapCommon.SameNamesSameLookup | card-omap-common-4-5.h:868-869 | Lookups depend only on the names, so touching and copying values leave them unchanged. |
| OmapCommon.ReconcileIdempotent | card-omap-common-4-5.h:858-891 | Running the reconciliation a second time changes neither cache and gives the same verdict. |
| Restore.MixerDb.constructor | restore.c:110 | The list starts empty. |
| Restore.MixerDb.PushBack | restore.c:69-75 | The node is appended at the end. |
| Restore.MixerDb.ResetTouch | restore.c:77-83 | Every flag is cleared and nothing else changes. |
| Restore.MixerDb.Touch | restore.c:85-97 | Only the first node with the id gains its flag. |
| Restore.MixerDb.GetControlIdByName | restore.c:130-138 | The id of the first node with the name, or -1 as `unsigned`. |
| Restore.MixerDb.AuditTouch | restore.c:237-249 | 0 exactly when every node is touched, else 1. |
| Restore.Cleared | restore.c:77-83 | Same nodes, every flag cleared. |
| Restore.FirstWithId | restore.c:90-96 | The first node with the id, or none when no node has it. |
| Restore.TouchFirstKeeps | restore.c:85-97 | Names, ids and types are kept. A flag is set afterwards exactly when it was set before or its node is the first with the id. |
| Restore.FirstDbNamed | restore.c:132-136 | The first node with the name, or none when no node has it. |
| Restore.DbOf | restore.c:111-125 | One node per control, in order: its name, id n, its type, untouched. |
| Restore.CreateDb | restore.c:99-128 | 1 exactly for a mixer without controls, else 0. The list is DbOf of the mixer. |
| Restore.DbLookupIsIndex | restore.c:111-138 | With distinct names, looking up control n's name gives n. |
| Restore.NewlineIndex | restore.c:144 | The first newline, or the end; no newline comes before it. |
| Restore.CopyCount | restore.c:144-146 | The characters copied are at most `max` and at most what is left. |
| Restore.Consumed | restore.c:144-154 | The cursor moves past at least the characters copied and never beyond the end of the file. |
| Restore.LineText | restore.c:148-151 | The line read is NUL-free and shorter than the buffer. |
| Restore.ReadLine | restore.c:140-157 | It returns the count copied, advances the offset as Consumed says, and leaves LineText as the C string in the buffer. Its loop compares the offset with the end before it reads, the corrected order of restore.c:144. |
| Restore.CStrStops | restore.c:148-151 | A NUL ends the C string: what follows does not count. |
| Restore.FinalCursor | restore.c:301-303 | The read loop's last `read_line` call is within the file and copies nothing. |
| Restore.CtlTypeString | restore.c:200 | The type string is "ENUM" exactly for an ENUM control. |
| Restore.FieldAt | restore.c:182-189 | The field at `pos` runs to the next tab or the end, and the remaining fields follow it. |
| Restore.RunAdvance | restore.c:182-233 | One pass of the field loop is one Step, and `pos = sep + 1` moves to the remaining fields. |
| Restore.HandleField | restore.c:190-230 | One field of the switch computes exactly the Step of the line's state. |
| Restore.ProcessLine | restore.c:163-235 | It makes exactly LineEffect's set calls and leaves the list as LineEffect says: nothing for an empty or comment line, else every field run and the named control touched. |
| Restore.RestoreLinesCons | restore.c:301-303 | The lines of a file are processed in order. |
| Restore.RestoreAdvance | restore.c:301-303 | One pass of the read loop processes the next line and moves the cursor past it. |
| Restore.LinesAdvance | restore.c:301-303 | A line read with a non-zero count is the first of the remaining lines. |
| Restore.Audit | restore.c:237-249 | 0 exactly when every node is touched. |
| Restore.RestoreMain | restore.c:251-311 | 1 for a wrong argument count, an unopened mixer or file, or an empty mixer. Otherwise the calls are those of the file's lines in order, from a reset list, and the result is the audit. |
| Restore.TypeMismatchStillWrites | restore.c:199-232 | As written, a line whose type does not match still sets its value; with the skip honoured it sets nothing. |
| Restore.MismatchSteps | restore.c:190-232 | The fields of that mismatched line, step by step. |
| Restore.MismatchFields | restore.c:182-189 | The line "X\tINT\t1\t5" splits into its four fields. |
| Restore.StoppingWritesOnlyMatched | restore.c:190-215 | Honouring the skips, a line sets values only when its name was found and its type and count match the control. |
| Restore.RunFirst | restore.c:182-233 | A line's run is its first Step, then the run of the rest. |
| Save.ValueToken | save.c:86-99 | INT, BOOL and BYTE values are printed as `%u` of the value, ENUM values as their label, and anything else as "#N/A". |
| Save.Tokens | save.c:86-100 | One token per value, in slot order. |
| Save.LineFields | save.c:84-100 | A control's line: its name, type string, value count in decimal, then its tokens. |
| Save.UnlinesSnoc | save.c:101 | Each line is terminated by a newline. |
| Save.DumpLines | save.c:72-102 | One line per control, in index order. |
| Save.SaveMain | save.c:43-108 | 1 with no output for a wrong argument count or an unopened mixer or file. Otherwise 0 and the dump: the header, then one line per control. |
| SaveRestore.Touched | restore.c:234 | The list with the first i controls touched. |
| SaveRestore.FinalCursorOfUnlines | restore.c:301-303 | For newline-terminated lines that fit the buffer, the last call of the read loop is at the end of the text. |
| SaveRestore.SavedFileReadPastEnd | restore.c:144 | Restoring any file `save` wrote ends with a call at the end of the file, whose loop test as written reads `src[size]`. |
| SaveRestore.LinesOfUnlines | restore.c:140-157 | Reading newline-terminated lines that fit the buffer gives back exactly those lines. |
| SaveRestore.TokensPlain | save.c:86-99 | Every token of a restorable control is free of tabs, newlines and NULs. |
| SaveRestore.FieldsPlain | save.c:84-99 | Every field of its line is too. |
| SaveRestore.DumpLineShape | save.c:84-101 | A saved line splits back into its fields. It is not a comment, has no newline or NUL, and fits the buffer. |
| SaveRestore.HeaderShape | save.c:70-71 | The header is a comment line that fits the buffer. |
| SaveRestore.DumpLinesRead | save.c:70-102 | Restore reads a dump as the header followed by one line per control. |
| SaveRestore.ValuesRestore | restore.c:216-226 | The value fields from slot k on set slots k onwards, in order. |
| SaveRestore.ValueRestores | restore.c:216-226 | Value field k sets slot k to its saved value or label and moves to slot k + 1. |
| SaveRestore.NumberRestores | restore.c:222-223 | A value printed with `%u` and read back by `atoi` sets the same `int`. |
| SaveRestore.LineRestore | restore.c:163-235 | Control n's line sets its slots back and touches control n. |
| SaveRestore.HeadFields | restore.c:191-215 | The name, type and count fields of a saved line find the control and pass its checks. |
| SaveRestore.QuietField | restore.c:182-233 | A field that sets nothing only hands its state on. |
| SaveRestore.NameFieldFinds | restore.c:191-198 | A saved name finds its own control. |
| SaveRestore.TypeFieldMatches | restore.c:199-206 | A saved type string matches the control. |
| SaveRestore.CountFieldMatches | restore.c:207-215 | A saved count matches the control's count. |
| SaveRestore.TouchNext | restore.c:85-97 | Touching control i after the first i touches the first i + 1. |
| SaveRestore.LinesRestore | restore.c:301-303 | The control lines from i on restore controls i onwards and touch them. |
| SaveRestore.SaveRestoreRoundTrip | restore.c:251-311 | Restoring a dump with a reset list sets every INT/BOOL/BYTE slot back to its value and every ENUM slot to its label, in order. It touches every control, so the audit returns 0. |
| Tinyalsa.TypeString | restore.c:200-201 | Type strings are non-empty, free of tabs, newlines and NULs, never "#N/A", and "ENUM" exactly for ENUM. |
| Tinyalsa.TypeStringInjective | restore.c:200-201 | Different types have different strings. |
| Text.CStr | restore.c:165 | `strlen` counts the characters before the first NUL. |
| Text.Decimal | save.c:84 | `%u` prints a non-empty digit string with no sign, tab, newline or NUL. |
| Text.DecimalValue | save.c:84 | The digits `%u` prints spell the number. |
| Text.AtoiDecimal | restore.c:209 | `atoi` reads back the number `%u` printed. |
| Text.TabIndex | restore.c:183-187 | The first tab, or the end; no tab comes before it. |
| Text.SplitJoin | restore.c:182-233 | Splitting a tab-joined line of tab-free fields (the last non-empty) gives back the fields. |
| CInt.U32 | oscillator-table.c:48-49 | `uint32_t` conversion lands in range and keeps values already in range. |
| CInt.S32OfU32 | mixer_cache.c:174 | An `unsigned` read as `int` is a 32-bit signed value that converts back. |
| CInt.S32ThroughU32 | restore.c:222-223 | An `int` stored as `unsigned` and read back as `int` is unchanged. |
| CInt.SizeT | card-omap-common-4-5.h:861 | `size_t` conversion lands in range, congruent modulo 2^64. |
| CInt.CDiv | oscillator-table.c:114 | C's `/` truncates toward zero: the magnitude is the quotient of magnitudes, with the sign of the quotient. |
| Bits.AndLowMask | oscillator-table.c:97 | `x & (2^k - 1)` is `x % 2^k`. |
| Bits.OrShifted | oscillator-table.c:67 | `(a << k) \| b` is `a * 2^k + b` when `b` fits in `k` bits. |
| Bits.PowerOfTwoIff | oscillator-table.h:29 | IS_POWER_OF_TWO holds exactly for 0 and the powers of two. |
| Bits.PowerOfTwoPow2 | oscillator-table.h:29 | Every power of two passes IS_POWER_OF_TWO. |
| OscillatorTable.DivStep | oscillator-table.c:91-95 | One pass keeps `p` a `uint32_t` and `r_reg` below `wave_len`. |
| OscillatorTable.FrameBytes | oscillator-table.c:90-91 | A frame splits into four 8-bit chunks. |
| OscillatorTable.FrameBytesValue | oscillator-table.c:90-91 | The four bytes spell the frame. |
| OscillatorTable.DivStepExact | oscillator-table.c:91-95 | Without wrap-around, one pass appends a byte to the exact quotient and remainder. |
| OscillatorTable.PassesExact | oscillator-table.c:90-96 | The passes over bytes give the exact quotient (mod 2^32) and remainder of their value times `tbl_len` by `wave_len`. |
| OscillatorTable.CheckMathIdentity | oscillator-table.c:98-101 | For `wave_len` up to 16711936, the byte-chunk division equals the 64-bit `frame * tbl_len / wave_len` and its remainder. |
| OscillatorTable.CheckMathWraps | oscillator-table.c:93 | Above that bound `(r_reg << 8)` wraps. For frame 3370692887, `tbl_len` 65536 and `wave_len` 16769547, `p` is 13107224 but the reference is 13172790. |
| OscillatorTable.CheckMathFails | oscillator-table.c:83-101 | A 16-sample table and a scale that pass the asserts of lines 83-85 pick sample 8 where CHECK_MATH expects 6. |
| OscillatorTable.CheckMathIndex | oscillator-table.c:97-101 | Below the bound, the table index equals CHECK_MATH's `ck_p & mask`. |
| OscillatorTable.MaskIsModulo | oscillator-table.c:97 | For a valid table, `p & mask` is `p % length`. |
| OscillatorTable.PhaseIndex | oscillator-table.c:86-97 | The phase index always lies in the table. |
| OscillatorTable.WaterFrom | oscillator-table.c:111-113 | The loop stops at the first shift at or after its start that brings `r_reg` to at most 0x7FFF. |
| OscillatorTable.WaterDivisor | oscillator-table.c:111-114 | With `wave_len >= 16`, the shifted divisor is positive and at least the shifted `r_reg`. |
| OscillatorTable.InterpolateBetween | oscillator-table.c:114-118 | The interpolated value lies between `a` and `b` (the asserts of lines 115-118), and the product fits `int32_t`. |
| OscillatorTable.VolumeBound | oscillator-table.c:122 | Scaling keeps the sign, never grows the magnitude, and is the identity at full volume. |
| OscillatorTable.DeclareTable | oscillator-table.h:48-54 | DECLARE_TABLE: the name and data, with the array's size as `uint16_t` length and size - 1 as mask. |
| OscillatorTable.DeclaredTableValid | oscillator-table.h:31-36 | A declared power-of-two table of `int16_t` values has `mask == length - 1` and a power-of-two length. |
| OscillatorTable.WaveLenNormal | oscillator-table.h:38-44 | For a normal scale, `(length << sub_shift) \| sub` is `length * 2^sub_shift + sub`. |
| OscillatorTable.NextIndex | oscillator-table.c:107 | The second sample wrapped into the table: the next one, or the first after the last. |
| OscillatorTable.NextSamplePastEnd | oscillator-table.c:107 | As written, `data[p + 1]` reads past a 16-sample table played at its own length (frame 15). |
| OscillatorTable.FrameSample | oscillator-table.c:86-122 | Every frame's sample fits `int16_t`. |
| OscillatorTable.Samples | oscillator-table.c:75-122 | One sample per frame. |
| OscillatorTable.SamplesAt | oscillator-table.c:75-122 | Sample k is the sample of frame `offset + k` in 32 bits. |
| OscillatorTable.InterleaveLength | oscillator-table.c:123-127 | `count * channels` values are written. |
| OscillatorTable.InterleaveSlot | oscillator-table.c:123-127 | Slot `k * channels + c` holds sample k for each channel c. |
| OscillatorTable.FramesSlot | oscillator-table.c:75-128 | Output slot `k * channels + c` holds frame k's sample. |
| OscillatorTable.RenderFrame | oscillator-table.c:86-122 | One frame's division, mask, interpolation and volume compute FrameSample. |
| OscillatorTable.Render | oscillator-table.c:42-131 | Returns 0. The first `count * channels` slots hold the interleaved samples, and nothing after them changes. The same code is `render` in tone-generator.c:115-203. |
| OscillatorTable.DivideFrame | oscillator-table.c:87-96 | The shift loop computes LongDivision of the frame. |
| ToneGenerator.WaveTables | tone-generator.c:95-101 | The four tables in order: square, sine, triangle, sawtooth. |
| ToneGenerator.CheckWaveTables | tone-generator.c:103-111 | 0; every table's `uint16_t` length equals its array size. |
| ToneGenerator.FirstTable | tone-generator.c:306-313 | The first table of the name, or none when no table has it. |
| ToneGenerator.FindTable | tone-generator.c:306-317 | The search returns that table and checks its power-of-two and mask asserts. |
| ToneGenerator.LeastBitsFrom | tone-generator.c:353 | The least `bits` reached with `2^bits >= length`. |
| ToneGenerator.TableBits | tone-generator.c:352-353 | The loop computes it, at most 16 for a `uint16_t` length. |
| ToneGenerator.LeastBitsOfPower | tone-generator.c:353 | For a length of `2^b`, `bits` is `b`. |
| ToneGenerator.GuardBound | tone-generator.c:349-358 | A table the guard passes has `tbl_len <= 2^24`. |
| ToneGenerator.GuardAdmitsFullLength | tone-generator.c:354 | As written, the guard passes a 4096-sample table (12 + 12 = 24), whose `tbl_len` of exactly 2^24 fails the assert of line 157. |
| ToneGenerator.GuardIntendedFits | tone-generator.c:354 | With `>= 24`, a table that passes keeps `tbl_len` below 2^24. |
| ToneGenerator.ToneMain | tone-generator.c:274-365 | See the list after this table. |
| ToneGenerator.PeriodsExact | tone-generator.c:239 | The periods written are exactly those starting before the duration. |
| ToneGenerator.Playback | tone-generator.c:239-253 | One buffer per period, in order, each the rendered period. |
| ToneGenerator.InnerMain | tone-generator.c:213-258 | 1 with no writes when the PCM does not open, is not ready, or the buffer is not allocated. Otherwise 0 and exactly the Playback writes. |
| ToneGenerator.NextPosAsWritten | tone-generator.c:239 | The `unsigned` step stays below 2^32. |
| ToneGenerator.PositionWrapsToStart | tone-generator.c:239 | As written, a duration of UINT_MAX frames wraps `pos` from 4294966272 to 0, so the loop never ends. |
| GenerateWaveTable.FullScale | generate-wave-table.c:66-67 | FS_S16 and FS_S32 are the format maxima, and their negations fit too. |
| GenerateWaveTable.ChunkSize | generate-wave-table.c:352-362 | 2048 S16 or 1024 S32 samples fill the 4096-byte buffer. |
| GenerateWaveTable.SquareSample | generate-wave-table.c:83-113 | Full scale exactly in the first half of the table, negative full scale exactly in the second. |
| GenerateWaveTable.Table | generate-wave-table.c:62-63 | The whole table has one sample per index, by the generator's rule. |
| GenerateWaveTable.MidpointRule | generate-wave-table.c:83-87 | Chunk sample k is below the clamped midpoint exactly when `offset + k` is in the first half. |
| GenerateWaveTable.SquareWave | generate-wave-table.c:69-119 | Returns 0, warns exactly when the 32-bit `offset + count` passes the length, writes the square samples of the chunk and nothing else. |
| GenerateWaveTable.FormulaWave | generate-wave-table.c:121-228 | The floating-point generators' loop: sample k is the formula at `offset + k` in 32 bits, and nothing else is written. |
| GenerateWaveTable.Generate | generate-wave-table.c:365 | A chunk within the table is that slice of the whole table. |
| GenerateWaveTable.PlanTiles | generate-wave-table.c:351-367 | The chunks tile the table exactly once, in order. All are full except the last, there are ceil(length / size) of them, and none is empty. |
| GenerateWaveTable.WriteTable | generate-wave-table.c:349-367 | The loop makes exactly the planned chunks and outputs exactly the table. |
| GenerateWaveTable.ChunkWrapsAsWritten | generate-wave-table.c:363-364 | As written, for UINT_MAX S16 samples the last chunk's `k + count` wraps: the clamp does not fire, a full chunk of 2048 is generated whose last sample lies one past the table, and `k` restarts at 0. |
| GenerateWaveTable.FindName | generate-wave-table.c:314-320 | The first wave name equal to the argument, or none exactly when it is absent. |
| GenerateWaveTable.ParseFormat | generate-wave-table.c:339-347 | Exactly "S16" or "S32". |
| GenerateWaveTable.ParseJob | generate-wave-table.c:314-347 | Accepted exactly when the wave is known, the length is 8 to UINT_MAX, and the format is known. The accepted job carries the wave, the length and the format. |
| GenerateWaveTable.GenerateMain | generate-wave-table.c:282-370 | See the list after this table. |

What the three `main`-style members state:

- **ConfigCmd.ConfigCmdMain** (config_cmd.c:123-227), whose result and calls equal `ConfigOutcome` with the fix off:
  - `argc` below 5 gives 0 with no calls;
  - a bad direction or enable gives 1;
  - a failed name lookup gives its error;
  - no module gives the written 0 with no calls;
  - a names error gives it after one call;
  - an unlisted frontend or backend gives 1;
  - an unopened mixer gives 1;
  - otherwise the module's config result, after exactly those calls.
- **ToneGenerator.ToneMain** (tone-generator.c:274-365):
  - `argc` other than 5 gives exit 0;
  - an unknown table, a refused argument or a table failing the guard gives 1;
  - otherwise `inner_main` is called with that table, the duration, the volume and a scale of the computed length and `sub`, `sub_den` 0xFFF and `sub_shift` 12.
- **GenerateWaveTable.GenerateMain** (generate-wave-table.c:282-370):
  - `argc` below 4 gives 0;
  - an invalid job gives 1;
  - otherwise 0, the planned chunks, and the whole table of the chosen generator.

## Left out

- Messages printed to stdout or stderr, usage texts and `strerror` are not modelled. Only return values and set calls are.
- Hardware is a parameter. tinyalsa's controls, their types, values and enum labels are data (`Tinyalsa.Mixer`). Set calls are recorded as `Write`s that name the control by its index, and are not performed.
- File I/O is a parameter. The restore file is a string (open, `fstat`, `mmap` and their failures collapse into "no file"). The output of `save` is a string, and only a failed `fopen` is modelled.
- `mixer_cache_deinit` is not modelled: it only frees the array, and the model has no explicit memory. The dangling pointer that `populate` leaves when it frees a non-empty array and the mixer then has no controls is not modelled either.
- `mixer_cache_apply` makes no NULL checks, so the model's `Apply` takes a non-NULL cache. A set call on a control the mixer lacks is recorded like any other.
- `strcpy` overflows are excluded by preconditions, not modelled. Names and labels must fit their buffers (`FitsCache`, `NodeReadable`).
- The `union` is tagged by the member last written. Re-reading one member's bytes through another is not modelled, and `get_mixer_defaults` copies whole unions of the same type.
- defaults.c, alsa-control.c, card-sdp4430.c, card-omap45.c, pulse-generator.c, tinyplay.c, config.c and audio-tool.c are not part of this model. `ah_card_find_by_name` and `ah_card_get_name` become parameters.
- module.h declares a card module with only `probe` and `get_mixer_defaults`, while card-hdmi.c and config_cmd.c use `get_fe_be_names` and `config` as well. The model's `Module` carries all four. `get_mixer_defaults` is modelled per card (CardHdmi.GetMixerDefaults, OmapCommon.GetMixerDefaults) rather than as a field.
- config_cmd.c's `usage` is not modelled: it prints the listings. The queries it makes for them are not part of `ConfigCmdMain`'s `calls`: `ah_card_get_name`, `audio_tool_get_module` and up to three `get_fe_be_names` (config_cmd.c:63-106). So the `argc` and bad-argument paths report no calls.
- module.h:66 says `probe` returns non-zero when the module supports the device, but module.c:100 stops at the first probe that returns 0. The model follows module.c: `Selects` asks for `probe() == 0`.
- ConfigCmd.ConfigCmdMain: `optional_port` and the message on success are not modelled. The module's `config` result is taken as it is.
- oscillator-table.h declares `oscillator_table_render` with `channel_mask` and `bits` parameters that the definition in oscillator-table.c lacks. The model follows the definition.
- OscillatorTable.Render requires `wave_len >= 16` when interpolating (`Divisible`). Below that, line 114's watered-down divisor can be 0, and the model cannot give the division a value.
- OscillatorTable.Render requires `data[p + 1]` to lie in the table for every frame (`NextInTableFrom`). As written, line 107 reads past the last sample (see Findings). The model's sample uses the wrapped index `(p + 1) & mask` (NextIndex), which coincides with `p + 1` wherever the precondition holds.
- OscillatorTable.Render requires the scale fields to be `uint16_t` and the shifts not to wrap (`ScaleDefined`). `tbl->length << sub_shift` and `wave_scale.length << sub_shift` are computed exactly.
- Floating point is left out. In tone-generator.c:319-347, `atof`, `pow` and the float-to-integer conversions become parameters (`FloatArgs`): the three refusals are booleans, and duration, volume, `length` and `sub` are integers in their C types. In generate-wave-table.c:121-228, the sine, triangle and sawtooth generators become `Formula` parameters.
- `config.volume` is declared `int16_t` but passed to `render` as `uint16_t vol_frac`. The model keeps the `uint16_t` value that the conversion at tone-generator.c:340 produces.
- The PCM interface is a parameter. `pcm_open`, `pcm_is_ready` and `calloc` are booleans, `pcm_write` failures are only reported, and `pcm_close` and the PCM configuration other than rate, period size and channel count are not modelled.
- `stdout_c_header_table`'s text format (`0x%04hx`, `0x%08x`) and the buffer's byte reinterpretation are not modelled. The output is the sequence of samples.
- `spec.wave` in generate-wave-table.c is set from `g_types`' unset `wave_id` and never read, so it is left out.
- restore.c's `mixer_ctl_get_type_string(NULL)` is modelled as "" (CtlTypeString). A mismatched name therefore still runs the type, count and value fields against no control.

## Findings

| source | as written | input that shows it | evidently intended | confidence | as-written member | corrected member |
|---|---|---|---|---|---|---|
| card-omap-common-4-5.h:887-888 | `audit ? ret : 1` forces 1 when an audit passes | one live control "A" matching its one default "A" | 0 when all matched and both audits pass | high, not executed | OmapCommon.PerfectMatchReportedAsFailure | OmapCommon.IntendedVerdict |
| card-omap-common-4-5.h:53 | every default's id is -1, and lookups return it | any name in the table, e.g. "DL1 Equalizer" | ids equal to positions, so the lookup gives the index | high, not executed | OmapCommon.LookupAsWrittenIsMinusOne | OmapCommon.NumberedLookupIsPosition |
| card-omap-common-4-5.h:868-870 | the `int` lookup is stored in `size_t n`, so `n < 0` never holds | a name not in the table: -ENODEV becomes 2^64-19 | a signed test that skips missing names | high, not executed | OmapCommon.AsWrittenIndexOutOfRange | OmapCommon.ReconcileEntry |
| mixer_cache.c:198 | `id > cache->count` admits id == count | touch with id == count | `id >= count` | high, not executed | MixerCache.TouchGuardAdmitsEnd | MixerCache.Touch |
| config_cmd.c:175-178 | a missing module returns `ret`, which is 0 | a card whose name no module has | an error code | high, not executed | ConfigCmd.MissingModuleReportedAsSuccess | ConfigCmd.FixedSuccessConfigures |
| restore.c:195, 204, 213, 218 | `pos = length` is overwritten by `pos = sep + 1` at line 232 | line "X\tINT\t1\t5" on BOOL control "X" sets slot 0 to 5 | a failed check skips the rest of the line | high, not executed | Restore.TypeMismatchStillWrites | Restore.StoppingWritesOnlyMatched |
| oscillator-table.c:93 | `(r_reg << 8)` wraps for `wave_len` above 16711936, though line 84 allows up to 2^24 | frame 3370692887, 16 samples, scale (4094, 523, 4095, 12) | the CHECK_MATH index | medium, not executed | OscillatorTable.CheckMathFails | OscillatorTable.CheckMathIndex |
| oscillator-table.c:107 | `data[p + 1]` at the last sample reads past the table | 16-sample table, scale (16, 0, 0, 0), frame 15 | the wrapped next sample `(p + 1) & mask` | medium, not executed | OscillatorTable.NextSamplePastEnd | OscillatorTable.NextIndex |
| tone-generator.c:354 | `> 24` admits `sub_shift + bits == 24` | the 4096-sample table with `sub_shift` 12 | `>= 24`, so that line 157's assert holds | high, not executed | ToneGenerator.GuardAdmitsFullLength | ToneGenerator.GuardIntendedFits |
| tone-generator.c:239 | `unsigned pos` wraps to 0 before reaching a duration near UINT_MAX | duration UINT_MAX frames | the loop ends after ceil(duration / 1024) periods | medium, not executed | ToneGenerator.PositionWrapsToStart | ToneGenerator.PeriodsExact |
| restore.c:144 | the loop tests `src[*offset] != '\n'` before `*offset < size` | any file that `save` wrote: the last `read_line` call is at offset `size` and reads `src[size]`, one past the `mmap` | compare the offset with `size` first | high, not executed | SaveRestore.SavedFileReadPastEnd | Restore.ReadLine |
| generate-wave-table.c:363-364 | `k + count` wraps, so the clamp fails: the last chunk holds one sample past the table, and `k` restarts at 0 | length UINT_MAX, format S16 | a last chunk of 2047 samples, then the loop ends | medium, not executed | GenerateWaveTable.ChunkWrapsAsWritten | GenerateWaveTable.PlanTiles |
