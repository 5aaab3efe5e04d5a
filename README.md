# megautils RAID core in Dafny

megautils manages RAID controllers on bare-metal servers through two vendor
command-line tools: MegaCLI (`megautils/raid/`) and the SAS IR utility
(`megautils/raid_ircu/`). This project models the core of both families:

- **The record parsers.** `_handle` of every `Adapter`, `PhysicalDisk` and
  `VirtualDriver` class reads the tool's output line by line into a mutable
  accumulator object and appends deep-copied snapshots of it. Each parser
  is a Dafny `class` whose fields are the object's attributes. Its
  `Handle(lines, multi)` method loops over the lines and is proved equal
  to a pure fold, `Parse`, over a one-line step function, `LineStep`. The
  properties of the parser are lemmas about `Parse`. The descriptive
  attributes live in a map keyed by the Python attribute name, and the
  label chains are tables of `Field` values.
- **The commands.** `__flush__`, `get_*`, `create` and `destroy` build
  command lines, run the tool and parse its output. The tool is a function
  parameter (`Tool`: command line in, output lines or an error out). Each
  method is proved equal to a function (`FlushSpec`, `CreateSpec`,
  `DestroySpec`) that returns the error raised, the command lines issued
  and the object's new state.
- **The validation helpers of `create`.** These are the `enc:slot` disk
  reference check, the grouping of disks into `-Array<i>[...]` spans, the
  recovery of the new volume id from `Created VD` output, and the
  minimum-disk loop of `validate_raid_schema`.
- **The two `allocate_disks` variants.** They share one selection rule
  (`DiskSelection.Select`): filter by state and size, split into ssd and
  hdd pools, choose a pool by precedence, and format `enc:slot`
  references. They differ in the final slice.

The model reproduces the defects of the code as written and flags each one
in a comment next to the lemma that proves its consequence:

- The MegaCLI physical-disk parser and all three SAS IR parsers (adapter,
  physical disk and volume) append a snapshot after every line once the
  id is set, not once per record.
- The SAS IR parsers read the undefined names `delim` and `valuedds`, so
  those branches always raise `NameError`.
- The SAS IR volume's boundary snapshot pairs the new id with the
  previous volume's fields.
- The SAS IR physical-disk parser never assigns `firmware_state`, so
  every parsed disk stays 'Online' and cannot be allocated.
- The MegaCLI physical-disk parser names `retstr.readlines` without
  calling it. On the `str` that `command` returns this raises
  AttributeError, so as written it fails on every output (see Findings).
- The MegaCLI allocator reads `x.state` and takes one disk too few (see
  Findings).

Single-mode `_handle` of the MegaCLI virtual drive, started without an
id, returns its first snapshot at the THIRD boundary line, not the
second. The early-return test comes before
the append, and the first boundary only sets the id
(`MegaVirtualDriver.SingleAgreesWithMulti`, `Need`).

Module layout:

- `lists.dfy`, `text.dfy`: Python slicing, `str.find`, `strip`, `split`,
  `int()` and `%s` formatting.
- `fields.dfy`: the label-chain tables.
- `common.dfy`: values, errors, results and the helpers of `create`.
- `disk_selection.dfy`, `mega_disk_allocator.dfy`,
  `ircu_disk_allocator.dfy` and `ircu_pd_allocation.dfy`: allocation.
- One file per parser class: `mega_adapter.dfy`, `mega_physical_disk.dfy`,
  `mega_virtual_driver.dfy`, `ircu_adapter.dfy`, `ircu_physical_disk.dfy`
  and `ircu_virtual_driver.dfy`.

## Model

| member | source | states |
|---|---|---|
| Lists.Take | megautils/raid/disk_allocator.py:83-84 | Python `s[:hi]`: the first `hi` elements, clamped to the length; a negative bound counts from the end |
| Lists.Filter | megautils/raid/disk_allocator.py:55-60 | a list comprehension keeps exactly the elements satisfying the condition, never more than the input |
| Lists.FilterIsSubsequence | megautils/raid/disk_allocator.py:55-60 | a comprehension's result is an order-preserving subsequence of its input |
| Lists.FilterSplitsLength | megautils/raid/disk_allocator.py:59-60 | two comprehensions with complementary conditions split the input: their lengths add up to its length |
| Text.Find | megautils/raid/adapter.py:58 | `str.find`: -1 when absent, otherwise an index where the substring occurs with no earlier occurrence |
| Text.StripTrims | megautils/raid/adapter.py:59 | `str.strip` returns a slice `s[i..j]` of its input: everything before i and from j on is whitespace, and the slice neither starts nor ends with whitespace |
| Text.StripNoSpace | megautils/raid/adapter.py:59 | stripping text that has no surrounding whitespace returns it unchanged |
| Text.JoinSplit | megautils/raid_ircu/adapter.py:58 | joining the pieces of `line.split(' ')` with the separator gives the line back |
| Fields.IntValue | megautils/raid/physical_disk.py:89 | `int(text)` succeeds exactly when the text is an integer, otherwise raises ValueError carrying the text |
| Fields.Convert | megautils/raid/physical_disk.py:84-158 | the conversion of one branch fails exactly for an undefined slice end or a non-integer under `int()`; strings stay strings, integers integers |
| Fields.Lookup | megautils/raid/physical_disk.py:87-158 | the elif chain selects a branch whose label prefixes the line; None only when no label does |
| Fields.LookupAt | megautils/raid/physical_disk.py:87-158 | the first label in chain order that prefixes the line wins |
| Fields.Assign | megautils/raid/physical_disk.py:87-158 | a line matching no label leaves the attributes unchanged; otherwise exactly the selected attribute is set to the converted value, or the conversion's error is raised |
| Fields.AtMostOneAttr | megautils/raid/physical_disk.py:84-158 | one line adds or changes at most one attribute; all others keep their values |
| Fields.CutAtUnit | megautils/raid/virtual_driver.py:78-81 | on `head:value unit tail` the text between ':' and the unit marker, stripped, is the value |
| Fields.CutBack | megautils/raid/physical_disk.py:111-114 | cutting `back` characters before a one-character marker yields the stripped value |
| Common.ColonToUnit | megautils/raid/virtual_driver.py:79-81 | `line[line.find(':') + 1:line.find(unit)].strip()` on `head:value unit tail` is the stripped value |
| Common.ColonToChar | megautils/raid_ircu/physical_disk.py:80-82 | the same for a one-character end marker such as '/' |
| Common.FirstLabelAt | megautils/raid/adapter.py:57-101 | in a label table the first label prefixing the line decides the branch |
| Common.FirstLabelNone | megautils/raid/adapter.py:57-101 | a line no label prefixes falls through the chain |
| Common.PrefixClash | megautils/raid_ircu/physical_disk.py:92-97 | two labels differing at some position inside both cannot prefix the same line ('  Serial No' versus '  Unit Serial No') |
| Common.FirstBadDisk | megautils/raid/virtual_driver.py:126-129 | None exactly when every reference matches `^[0-9]+:[0-9]+$`; otherwise the first reference that does not |
| Common.FormattedRefMatches | megautils/raid/disk_allocator.py:83-84 | a reference the allocator formats from integer enclosure and slot passes the check of `create` |
| Common.RecoveredId | megautils/raid/virtual_driver.py:159-168 | the id `create` reads back is None or a string, and None when no line holds 'Created VD'. `RecoveredIdFirst` states which line and offset it comes from, and `RecoverId` is the loop that computes it |
| Common.RecoveredIdFirst | megautils/raid/virtual_driver.py:159-168 | the recovered id is None exactly when no line contains 'Created VD'; otherwise it is the text 11 characters after the first occurrence in the first such line |
| Common.RecoverId | megautils/raid/virtual_driver.py:160-166 | the loop with `break` computes the recovered id |
| Common.DiskList.constructor | megautils/raid/virtual_driver.py:118 | the caller's disk list holds the given references |
| Common.DiskList.PopFront | megautils/raid/virtual_driver.py:138 | `disks.pop(0)` returns the head and leaves the tail |
| Common.DiskList.PopMany | megautils/raid/virtual_driver.py:145-146 | k pops return the first k references in order and leave the rest |
| DiskSelection.DiskCount | megautils/raid/disk_allocator.py:51-53 | `number_of_physical_disks` when given, else the level's minimum; KeyError for an unknown level |
| DiskSelection.Candidates | megautils/raid/disk_allocator.py:55-56 | exactly the disks whose state lacks 'Online' and whose size reaches the minimum, in inventory order |
| DiskSelection.FirstUnmapped | megautils/raid/disk_allocator.py:87-88 | None exactly when every interface is in the type map; otherwise the unmapped interface of the first disk whose interface is not in the map, which is the key of the KeyError `_get_disk_type` raises |
| DiskSelection.OfKind | megautils/raid/disk_allocator.py:59-60 | exactly the disks classified as the given type, in order |
| DiskSelection.ChoosePool | megautils/raid/disk_allocator.py:64-82 | an ssd preference (explicit or root volume) succeeds exactly with at least n ssd disks and never falls back to hdd; enough hdd disks give the hdd pool; too few hdd disks fail for an explicit hdd request and otherwise fall back to ssd if large enough; an empty pool fails |
| DiskSelection.Select | megautils/raid/disk_allocator.py:50-82 | the selection rule shared by both `allocate_disks` (count, filter, type map, pool choice, in source order): the count lookup's KeyError comes first; a success carries the looked-up count and a non-empty pool at least that large. `SelectSound`, `SelectCount` and `PoolsPartition` state the rest |
| DiskSelection.SelectSound | megautils/raid/disk_allocator.py:50-82 | selection fails only with PhysicalDisksNotFoundError or KeyError; a chosen pool is non-empty, has at least n disks, is a subsequence of the inventory, holds only candidates and only one disk type |
| DiskSelection.SelectCount | megautils/raid/disk_allocator.py:52-53 | the count returned with a pool is the requested count and the pool is at least that large |
| DiskSelection.PoolsPartition | megautils/raid/disk_allocator.py:59-60 | when every interface maps to ssd or hdd, the two pools are disjoint and together as long as the candidates |
| DiskSelection.Refs | megautils/raid/disk_allocator.py:83 | one `"%s:%s" % (enclosure, slot)` reference per disk, in order |
| DiskSelection.LogicalDiskConfig.constructor | megautils/raid/disk_allocator.py:43 | a request with no `physical_disks` entry |
| DiskSelection.LogicalDiskConfig.SetPhysicalDisks | megautils/raid/disk_allocator.py:83-84 | writes `physical_disks` and nothing else |
| MegaDiskAllocator.DefaultCounts | megautils/raid/disk_allocator.py:29-35 | the default counts '1'→2, '6'→4, '5+0'→6, '6+0'→8; any other level is a KeyError |
| MegaDiskAllocator.AllocateAsWritten | megautils/raid/disk_allocator.py:52-56 | flagged: `allocate_disks` as written: the count lookup's KeyError first; then any non-empty inventory raises AttributeError for `state` |
| MegaDiskAllocator.AllocateDisks | megautils/raid/disk_allocator.py:43-84 | `allocate_disks` with the filter reading `firmware_state` and the `n - 1` slice kept: fails exactly when `Select` does, and otherwise writes a prefix of the chosen pool's references. `OneShortOfIrcu` and `Raid1GetsOneDisk` state how long the prefix is |
| MegaDiskAllocator.AsWrittenNeverSucceeds | megautils/raid/disk_allocator.py:55-56 | as written (`x.state`) allocation never succeeds: a known level with a non-empty inventory raises AttributeError |
| MegaDiskAllocator.OneShortOfIrcu | megautils/raid/disk_allocator.py:83-84 | the MegaCLI allocator succeeds and fails exactly when the SAS IR one does, and returns the IR result without its last reference |
| MegaDiskAllocator.TwoSpareSasCandidates | megautils/raid/disk_allocator.py:55-56 | two spare SAS disks are both candidates for size 'MAX' |
| MegaDiskAllocator.TwoSpareSasKinds | megautils/raid/disk_allocator.py:59-60 | SAS disks form the hdd pool and the ssd pool is empty |
| MegaDiskAllocator.TwoSpareSasSelected | megautils/raid/disk_allocator.py:64-80 | a RAID 1 request on two spare SAS disks selects both, count 2 |
| MegaDiskAllocator.TwoSpareSasFirstRef | megautils/raid/disk_allocator.py:83-84 | the first reference of that pool is "32:0" |
| MegaDiskAllocator.Raid1GetsOneDisk | megautils/raid/disk_allocator.py:83-84 | that RAID 1 request is given one disk, half of what the level needs |
| MegaDiskAllocator.AllocateInto | megautils/raid/disk_allocator.py:43-84 | on success only `physical_disks` of the caller's config is written, with the allocation; on failure the config is unchanged and the error is returned |
| IrcuDiskAllocator.AllocateDisks | megautils/raid_ircu/disk_allocator.py:24-76 | the SAS IR `allocate_disks`: fails exactly when `Select` does, and otherwise writes a prefix of the chosen pool's references. `AllocateDisksExact` states that the prefix holds exactly n references |
| IrcuDiskAllocator.AllocateDisksExact | megautils/raid_ircu/disk_allocator.py:32-74 | errors are PhysicalDisksNotFoundError or KeyError; a success is exactly n references: the formatted first n disks of a pool of candidates drawn in order from the inventory |
| IrcuDiskAllocator.RefsPrefix | megautils/raid_ircu/disk_allocator.py:72-74 | formatting and then slicing equals slicing and then formatting |
| IrcuDiskAllocator.AllocateInto | megautils/raid_ircu/disk_allocator.py:72-74 | on success only `physical_disks` is written; on failure nothing is |
| IrcuPdAllocation.ToDisk | megautils/raid_ircu/disk_allocator.py:38-40 | the allocator's view of a parsed disk keeps enclosure, slot and an 'Online' state |
| IrcuPdAllocation.ToDisks | megautils/raid_ircu/disk_allocator.py:38 | one view per parsed disk, in order |
| IrcuPdAllocation.OnlineNotAvailable | megautils/raid_ircu/disk_allocator.py:39 | an 'Online' disk is never a candidate |
| IrcuPdAllocation.ParsedDisksNeverAllocated | megautils/raid_ircu/physical_disk.py:39 | every disk the IR parser lists is 'Online', so there are no candidates and allocation from a parsed inventory always fails |
| MegaAdapter.SetField | megautils/raid/adapter.py:57-101 | the label chain never changes the id |
| MegaAdapter.LineStep | megautils/raid/adapter.py:51-101 | single mode returns the first snapshot once the list is non-empty; an 'Adapter #' line with a non-integer id raises ValueError; a valid one sets the id and appends the previous state if it had an id; other lines keep the id and the list |
| MegaAdapter.Parse | megautils/raid/adapter.py:48-105 | `_handle` as a fold of `LineStep` over the output lines, giving the object's final state and what `_handle` returns; `Handle` is proved equal to it, and `MultiIds`, `MultiCount`, `MultiKeepsPrefix`, `SingleAgreesWithMulti` and `FlushReturnsStale` state its properties |
| MegaAdapter.ParseStep | megautils/raid/adapter.py:50-105 | the fold advances by one line exactly as the loop does |
| MegaAdapter.HeaderIds | megautils/raid/adapter.py:53-56 | one id per 'Adapter #' line |
| MegaAdapter.MultiFailsOnBadHeader | megautils/raid/adapter.py:51-56 | multi mode never returns early and fails exactly when some 'Adapter #' line does not carry an integer |
| MegaAdapter.MultiIds | megautils/raid/adapter.py:49-56 | the ids listed are the initial snapshots', then the starting id if set, then the header ids in source order |
| MegaAdapter.MultiCount | megautils/raid/adapter.py:49-56 | from `id=None`, N 'Adapter #' lines give exactly N snapshots with their ids in order; none gives an empty list |
| MegaAdapter.MultiKeepsPrefix | megautils/raid/adapter.py:49-56 | snapshots already listed stay at the front |
| MegaAdapter.SingleAgreesWithMulti | megautils/raid/adapter.py:51-52 | without a line to return at, single mode runs exactly like multi mode; otherwise it returns the first snapshot multi mode lists |
| MegaAdapter.HeaderKeepsFields | megautils/raid/adapter.py:53-56 | an 'Adapter #' line changes only the id: fields of the previous record carry over |
| MegaAdapter.FlushReturnsStale | megautils/raid/adapter.py:30-37 | flushing an adapter that has an id returns the object's own pre-flush copy at the second line; the object keeps only the new id |
| MegaAdapter.BbuFlag | megautils/raid/adapter.py:84-86 | a 'BBU' line sets `bbu_present` to `str2bool` of the raw text after ':' |
| MegaAdapter.SerialDebuggerFlag | megautils/raid/adapter.py:93-95 | 'Serial Debugger' sets the flag `serial_debugger_present`, not the serial number |
| MegaAdapter.SerialNumberText | megautils/raid/adapter.py:60-62 | 'Serial No' sets `serial_number` to the stripped text after ':' |
| MegaAdapter.FlushSpec | megautils/raid/adapter.py:30-37 | without an id nothing is issued and InvalidParameterValue is raised; otherwise `-AdpAllInfo -a<id>` is issued and its output parsed in single mode |
| MegaAdapter.Adapter.constructor | megautils/raid/adapter.py:27-28 | a new adapter holds only its id |
| MegaAdapter.Adapter.HandleLine | megautils/raid/adapter.py:51-101 | one loop iteration updates the object as `LineStep` says |
| MegaAdapter.Adapter.ReadHeader | megautils/raid/adapter.py:53-56 | the header branch updates the object as `LineStep` says |
| MegaAdapter.Adapter.ApplyField | megautils/raid/adapter.py:57-101 | the chain updates the object as `SetField` says |
| MegaAdapter.Adapter.Handle | megautils/raid/adapter.py:48-105 | the object's final state and the returned value are those of `Parse` |
| MegaAdapter.Adapter.Flush | megautils/raid/adapter.py:30-37 | issues, returns and updates as `FlushSpec` says |
| MegaAdapter.Adapter.GetAdapters | megautils/raid/adapter.py:42-46 | issues `-AdpAllInfo -aALL` and parses its output in multi mode; a tool error leaves the object unchanged |
| MegaPhysicalDisk.SetEnclosure | megautils/raid/physical_disk.py:82-83 | succeeds exactly when the text after ':' is an integer, and then sets the enclosure to it |
| MegaPhysicalDisk.SetField | megautils/raid/physical_disk.py:84-158 | 'Slot Number' sets the slot to the integer after ':'; other branches never touch adapter, enclosure or slot; a line matching no label changes nothing |
| MegaPhysicalDisk.LineStep | megautils/raid/physical_disk.py:79-160 | single mode returns the first snapshot at a boundary once one exists; any other stop is an error; otherwise exactly one snapshot of the new state is appended |
| MegaPhysicalDisk.Parse | megautils/raid/physical_disk.py:76-161 | `_handle` as a fold of `LineStep` over the output lines, giving the object's final state and what `_handle` returns; `Handle` is proved equal to it, and `EveryLineSnapshot`, `SingleAgreesWithMulti` and `ReadlinesUncalled` state its properties |
| MegaPhysicalDisk.ParseStep | megautils/raid/physical_disk.py:76-161 | the fold advances by one line exactly as the loop does |
| MegaPhysicalDisk.EveryLineSnapshot | megautils/raid/physical_disk.py:160 | flagged: in multi mode a successful parse lists exactly one snapshot per input line, the last equal to the final state |
| MegaPhysicalDisk.HandleAsWritten | megautils/raid/physical_disk.py:78 | flagged: `_handle` as written, on the `str` output of `command`: AttributeError for `readlines` whatever the output, with the object unchanged |
| MegaPhysicalDisk.ReadlinesUncalled | megautils/raid/physical_disk.py:76-78 | flagged: as written `_handle` raises AttributeError (`readlines`) before reading a line, whatever the output; the intended loop raises only ValueError or NameError, so the two differ on every output, and an empty output lists no disk |
| MegaPhysicalDisk.SingleAgreesWithMulti | megautils/raid/physical_disk.py:79-81 | without a boundary to stop at, single mode equals multi mode; with one it returns multi mode's first snapshot |
| MegaPhysicalDisk.BoundaryNotInChain | megautils/raid/physical_disk.py:79-87 | an 'Enclosure Device ID' line is neither the slot line nor any label of the chain |
| MegaPhysicalDisk.BoundaryOnlyEnclosure | megautils/raid/physical_disk.py:79-86 | a boundary line sets the enclosure and nothing else, and appends that state |
| MegaPhysicalDisk.RawSizeBranch | megautils/raid/physical_disk.py:111-114 | a 'Raw Size' line selects the `raw_size` branch cut four characters before '[' |
| MegaPhysicalDisk.RawSizeField | megautils/raid/physical_disk.py:111-114 | for `Raw Size: 136.732 GB [0x...]` the stored value is "136.732" (the value before the 4-character unit) |
| MegaPhysicalDisk.ListCommand | megautils/raid/physical_disk.py:65-70 | `-PdList -aALL` without an adapter; `-PdInfo -PhysDrv [e:s] -a<adapter>` with enclosure and slot; `-PdList -a<adapter>` otherwise |
| MegaPhysicalDisk.FlushSpec | megautils/raid/physical_disk.py:55-61 | nothing is issued and InvalidParameterValue is raised unless enclosure, slot and adapter are all truthy (index 0 is rejected); otherwise `-PdInfo` for that disk is issued |
| MegaPhysicalDisk.PhysicalDisk.constructor | megautils/raid/physical_disk.py:24-50 | a new disk holds the given enclosure, slot and adapter and the `__init__` defaults |
| MegaPhysicalDisk.PhysicalDisk.ApplyField | megautils/raid/physical_disk.py:84-158 | the chain updates the object as `SetField` says, or raises and leaves it unchanged |
| MegaPhysicalDisk.PhysicalDisk.HandleLine | megautils/raid/physical_disk.py:79-160 | one loop iteration updates the object as `LineStep` says |
| MegaPhysicalDisk.PhysicalDisk.Handle | megautils/raid/physical_disk.py:76-161 | final state and returned value are those of `Parse` |
| MegaPhysicalDisk.PhysicalDisk.Flush | megautils/raid/physical_disk.py:55-61 | issues, raises and updates as `FlushSpec` says |
| MegaPhysicalDisk.PhysicalDisk.GetPhysicalDisks | megautils/raid/physical_disk.py:63-73 | issues `ListCommand` and parses its output in multi mode; a tool error leaves the object unchanged |
| MegaVirtualDriver.SetId | megautils/raid/virtual_driver.py:69-71 | the id is the integer between ':' and '(', or ValueError on that text |
| MegaVirtualDriver.SetField | megautils/raid/virtual_driver.py:72-109 | the chain never changes adapter or id; a line matching no label changes nothing |
| MegaVirtualDriver.LineStep | megautils/raid/virtual_driver.py:64-109 | single mode returns the first snapshot at a 'Virtual Drive' line once one exists; a boundary appends the previous state if it had an id and sets the new id; other lines keep id and list |
| MegaVirtualDriver.Parse | megautils/raid/virtual_driver.py:61-113 | `_handle` as a fold of `LineStep` over the output lines, giving the object's final state and what `_handle` returns; `Handle` is proved equal to it, and `MultiIds`, `MultiCount`, `MultiKeepsPrefix` and `SingleAgreesWithMulti` state its properties |
| MegaVirtualDriver.ParseUnfold | megautils/raid/virtual_driver.py:61-113 | the fold advances by one line exactly as the loop does |
| MegaVirtualDriver.BoundaryIds | megautils/raid/virtual_driver.py:64-71 | one id per boundary line |
| MegaVirtualDriver.MultiIds | megautils/raid/virtual_driver.py:62-71 | the ids listed are the initial snapshots', the starting id if set, then the boundary ids in source order |
| MegaVirtualDriver.MultiCount | megautils/raid/virtual_driver.py:110-113 | from `id=None`, N boundary lines give exactly N snapshots with their ids in order; none gives an empty list |
| MegaVirtualDriver.MultiKeepsPrefix | megautils/raid/virtual_driver.py:62-71 | snapshots already listed stay at the front |
| MegaVirtualDriver.SingleAgreesWithMulti | megautils/raid/virtual_driver.py:65-66 | single mode equals multi mode with fewer boundaries than it needs (three from `id=None`, two with an id, one once a snapshot exists); otherwise it returns multi mode's first snapshot |
| MegaVirtualDriver.SizeBranch | megautils/raid/virtual_driver.py:78 | a 'Size' line selects the `size` branch cut at ' GB' |
| MegaVirtualDriver.StripSizeBranch | megautils/raid/virtual_driver.py:85 | a 'Strip Size' line selects the `stripe_size` branch cut at ' KB', not the 'Size' branch |
| MegaVirtualDriver.SizeField | megautils/raid/virtual_driver.py:78-81 | `size` is the stripped text between ':' and ' GB' |
| MegaVirtualDriver.StripSizeField | megautils/raid/virtual_driver.py:85-88 | `stripe_size` is the stripped text between ':' and ' KB' |
| MegaVirtualDriver.SpanWidth | megautils/raid/virtual_driver.py:135-156 | span groups hold 2 (RAID 10), 3 (RAID 50) or 4 disks |
| MegaVirtualDriver.Groups | megautils/raid/virtual_driver.py:137-138 | every group has exactly k disks |
| MegaVirtualDriver.Leftover | megautils/raid/virtual_driver.py:137-138 | fewer than k disks are left over |
| MegaVirtualDriver.GroupsThenLeftover | megautils/raid/virtual_driver.py:135-156 | the groups in order followed by the leftover are the original list |
| MegaVirtualDriver.GroupCount | megautils/raid/virtual_driver.py:137 | there are `len(disks) / k` groups |
| MegaVirtualDriver.SpanLeftover | megautils/raid/virtual_driver.py:135-156 | for a span level the command takes `len(disks) / k` consecutive groups, fewer than k disks remain in the caller's list, and groups plus remainder are the original list |
| MegaVirtualDriver.DisksSpecified | megautils/raid/virtual_driver.py:233-237 | `number_of_physical_disks` takes precedence over `len(physical_disks)`; None when neither is present |
| MegaVirtualDriver.FlushSpec | megautils/raid/virtual_driver.py:49-55 | `__flush__`: without an adapter or an id, InvalidParameterValue with nothing issued and the object unchanged; otherwise exactly the drive's `-LdInfo` command, its output parsed in single mode (`FlushGuard`) |
| MegaVirtualDriver.CreateSpec | megautils/raid/virtual_driver.py:118-169 | `create`: a malformed reference raises InvalidDiskFormater naming it, with nothing issued; otherwise the creation command is issued first (`CreateChecksDisksFirst`, `CreateWithoutId`) |
| MegaVirtualDriver.DestroySpec | megautils/raid/virtual_driver.py:171-180 | `destroy`: the flush's commands come first; a success issues exactly one more and leaves the id None (`DestroyForgetsId`) |
| MegaVirtualDriver.CheckMinDisks | megautils/raid/virtual_driver.py:230-244 | an unknown level is a KeyError; otherwise the check passes exactly when no count is given, the count is 0, or it reaches the level's minimum, and fails with InvalidParameterValue naming level and minimum |
| MegaVirtualDriver.ValidateMinDisks | megautils/raid/virtual_driver.py:225-244 | passes exactly when every logical disk passes; otherwise raises the error of the first failing one |
| MegaVirtualDriver.CountTakesPrecedence | megautils/raid/virtual_driver.py:234-237 | with a count given, the `physical_disks` list has no influence |
| MegaVirtualDriver.FlushGuard | megautils/raid/virtual_driver.py:49-55 | nothing is issued exactly when adapter or id is None, and then InvalidParameterValue is raised with the object unchanged; otherwise `-LdInfo -L<id> -a<adapter>` is issued |
| MegaVirtualDriver.CreateChecksDisksFirst | megautils/raid/virtual_driver.py:126-129 | a malformed reference raises InvalidDiskFormater before any command, and only then |
| MegaVirtualDriver.CreateWithoutId | megautils/raid/virtual_driver.py:159-168 | output with no 'Created VD' line raises MegaCLIError after the one creation command and leaves the id None |
| MegaVirtualDriver.DestroyForgetsId | megautils/raid/virtual_driver.py:171-180 | a successful destroy issues the flush and then `-CfgLdDel` for the flushed id, and leaves the id None |
| MegaVirtualDriver.VirtualDriver.constructor | megautils/raid/virtual_driver.py:33-47 | a new drive holds the given adapter and id and the `__init__` defaults |
| MegaVirtualDriver.VirtualDriver.ApplyField | megautils/raid/virtual_driver.py:72-109 | the chain updates the object as `SetField` says, or raises and leaves it unchanged |
| MegaVirtualDriver.VirtualDriver.HandleLine | megautils/raid/virtual_driver.py:64-109 | one loop iteration updates the object as `LineStep` says |
| MegaVirtualDriver.VirtualDriver.Handle | megautils/raid/virtual_driver.py:61-113 | final state and returned value are those of `Parse` |
| MegaVirtualDriver.VirtualDriver.Flush | megautils/raid/virtual_driver.py:49-55 | issues, raises and updates as `FlushSpec` says |
| MegaVirtualDriver.VirtualDriver.Create | megautils/raid/virtual_driver.py:118-169 | issues, raises and updates as `CreateSpec` says; with valid references the caller's list is left with the span remainder, otherwise untouched |
| MegaVirtualDriver.VirtualDriver.BuildCommand | megautils/raid/virtual_driver.py:131-156 | builds the creation command and pops the span groups from the caller's list |
| MegaVirtualDriver.VirtualDriver.Destroy | megautils/raid/virtual_driver.py:171-180 | issues, raises and updates as `DestroySpec` says |
| MegaVirtualDriver.VirtualDriver.GetAll | megautils/raid/virtual_driver.py:182-192 | without an adapter raises InvalidParameterValue and issues nothing; otherwise issues `-LdInfo -LALL -a<adapter>` and parses in multi mode |
| MegaVirtualDriver.PopGroup | megautils/raid/virtual_driver.py:138 | pops k references from the front and formats their ` -Array<i>[...]` argument |
| MegaVirtualDriver.SpanCount | megautils/raid/virtual_driver.py:137 | computes the number of full groups |
| MegaVirtualDriver.PopSpans | megautils/raid/virtual_driver.py:136-138 | the loop builds the arguments of all full groups and leaves the leftover in the caller's list |
| IrcuVirtualDriver.SetField | megautils/raid_ircu/virtual_driver.py:67-91 | the chain never changes adapter or id |
| IrcuVirtualDriver.Boundary | megautils/raid_ircu/virtual_driver.py:58-66 | single mode returns the first snapshot once one exists; a non-integer last token raises ValueError; otherwise the id is set and in multi mode the state with the NEW id is appended |
| IrcuVirtualDriver.LineStep | megautils/raid_ircu/virtual_driver.py:57-93 | after a line the id is set exactly when the line is a boundary or it was set before |
| IrcuVirtualDriver.Parse | megautils/raid_ircu/virtual_driver.py:55-95 | `_handle` as a fold of `LineStep` over the output lines, giving the object's final state and what `_handle` returns; `Handle` is proved equal to it, and `EveryLineOnceIdSet`, `BoundaryPairsNewId` and `DisksNeverReset` state its properties |
| IrcuVirtualDriver.ParseStep | megautils/raid_ircu/virtual_driver.py:55-95 | the fold advances by one line exactly as the loop does |
| IrcuVirtualDriver.BoundaryNotInChain | megautils/raid_ircu/virtual_driver.py:58-91 | an 'IR volume' line matches no field label, nor the disks header, nor a PHY line |
| IrcuVirtualDriver.BoundaryPairsNewId | megautils/raid_ircu/virtual_driver.py:61-64 | flagged: in multi mode a boundary appends the new id with the previous volume's fields twice (at the boundary and after the line) |
| IrcuVirtualDriver.EveryLineOnceIdSet | megautils/raid_ircu/virtual_driver.py:92-93 | flagged: once the id is set, multi mode lists one snapshot per line plus one per boundary |
| IrcuVirtualDriver.StepKeepsDisks | megautils/raid_ircu/virtual_driver.py:85-88 | no line empties a non-empty disk list |
| IrcuVirtualDriver.ChainKeepsDisks | megautils/raid_ircu/virtual_driver.py:85-91 | the chain only creates or extends the disk list |
| IrcuVirtualDriver.DisksNeverReset | megautils/raid_ircu/virtual_driver.py:85-91 | flagged: over a whole parse the disk list is never reset between volumes |
| IrcuVirtualDriver.PhyAppends | megautils/raid_ircu/virtual_driver.py:89-91 | a PHY line appends its stripped value; before any disks header it raises AttributeError |
| IrcuVirtualDriver.RaidLevelNameError | megautils/raid_ircu/virtual_driver.py:79-81 | flagged: the '  RAID level' branch always raises NameError for `delim` |
| IrcuVirtualDriver.CreateCommand | megautils/raid_ircu/virtual_driver.py:112-115 | a command exists exactly for RAID 0, 1 and 10; any other level raises UnboundLocalError |
| IrcuVirtualDriver.FlushSpec | megautils/raid_ircu/virtual_driver.py:44-50 | nothing is issued exactly when adapter or id is None, and then InvalidParameterValue is raised; otherwise the `LIST` command of this volume is issued |
| IrcuVirtualDriver.CreateSpec | megautils/raid_ircu/virtual_driver.py:100-127 | a malformed reference raises InvalidDiskFormater first; an unsupported level raises UnboundLocalError with nothing issued; otherwise the creation command is issued first |
| IrcuVirtualDriver.CreateWithoutId | megautils/raid_ircu/virtual_driver.py:117-126 | output with no 'Created VD' line raises MegaCLIError after one command and leaves the id None |
| IrcuVirtualDriver.DestroySpec | megautils/raid_ircu/virtual_driver.py:129-138 | `destroy`: the flush's commands come first; a success issues exactly one more and leaves the id None (`DestroyForgetsId`) |
| IrcuVirtualDriver.DestroyForgetsId | megautils/raid_ircu/virtual_driver.py:129-138 | a successful destroy issues the flush and then `DELETEVOLUME` of the flushed volume id, and leaves the id None |
| IrcuVirtualDriver.VirtualDriver.constructor | megautils/raid_ircu/virtual_driver.py:33-42 | a new volume holds the given adapter and id and the `__init__` defaults |
| IrcuVirtualDriver.VirtualDriver.ReadBoundary | megautils/raid_ircu/virtual_driver.py:58-66 | the boundary branch updates the object as `Boundary` says |
| IrcuVirtualDriver.VirtualDriver.ApplyField | megautils/raid_ircu/virtual_driver.py:67-91 | the chain updates the object as `SetField` says, or raises and leaves it unchanged |
| IrcuVirtualDriver.VirtualDriver.HandleLine | megautils/raid_ircu/virtual_driver.py:57-93 | one loop iteration updates the object as `LineStep` says |
| IrcuVirtualDriver.VirtualDriver.Handle | megautils/raid_ircu/virtual_driver.py:55-95 | final state and returned value are those of `Parse` |
| IrcuVirtualDriver.VirtualDriver.Flush | megautils/raid_ircu/virtual_driver.py:44-50 | issues, raises and updates as `FlushSpec` says |
| IrcuVirtualDriver.VirtualDriver.Create | megautils/raid_ircu/virtual_driver.py:100-127 | issues, raises and updates as `CreateSpec` says |
| IrcuVirtualDriver.VirtualDriver.Destroy | megautils/raid_ircu/virtual_driver.py:129-138 | issues, raises and updates as `DestroySpec` says |
| IrcuVirtualDriver.VirtualDriver.GetAll | megautils/raid_ircu/virtual_driver.py:140-150 | without an adapter raises InvalidParameterValue and issues nothing; otherwise issues `<adapter> LIST` and parses in multi mode |
| IrcuPhysicalDisk.SetField | megautils/raid_ircu/physical_disk.py:70-106 | '  Slot' sets the slot to the integer after ':'; the chain never touches adapter, enclosure, id or firmware state; an unmatched line changes nothing |
| IrcuPhysicalDisk.Boundary | megautils/raid_ircu/physical_disk.py:61-69 | single mode returns the first snapshot once one exists; otherwise the previous state is appended if it had an id and the id becomes the boundary counter |
| IrcuPhysicalDisk.Finish | megautils/raid_ircu/physical_disk.py:107-110 | a snapshot is appended when the id is set; a 'Device is a Enclosure' line stops the parse with the list |
| IrcuPhysicalDisk.LineStep | megautils/raid_ircu/physical_disk.py:60-110 | the parse goes on only past non-terminator lines; afterwards the id is set exactly when the line is a boundary or it was set before |
| IrcuPhysicalDisk.Parse | megautils/raid_ircu/physical_disk.py:57-111 | `_handle` as a fold of `LineStep` over the output lines, giving the object's final state and what `_handle` returns; `Handle` is proved equal to it, and `IdsFromCounter`, `StopsAtTerminator`, `EveryLineOnceIdSet` and `AlwaysOnline` state its properties |
| IrcuPhysicalDisk.ParseStep | megautils/raid_ircu/physical_disk.py:57-111 | the fold advances by one line exactly as the loop does |
| IrcuPhysicalDisk.TerminatorEnds | megautils/raid_ircu/physical_disk.py:109-110 | a terminator line ends the parse with the list so far plus the current state if it has an id |
| IrcuPhysicalDisk.StopsAtTerminator | megautils/raid_ircu/physical_disk.py:109-110 | lines after the first terminator have no effect |
| IrcuPhysicalDisk.StopsAt | megautils/raid_ircu/physical_disk.py:109-110 | the parse of the whole output equals the parse of the output up to a line that always stops it |
| IrcuPhysicalDisk.SameFirstLine | megautils/raid_ircu/physical_disk.py:60 | two outputs with the same first line take the same first step |
| IrcuPhysicalDisk.BoundaryCounter | megautils/raid_ircu/physical_disk.py:61-67 | a boundary advances the counter: the id is the counter value |
| IrcuPhysicalDisk.FinishCounter | megautils/raid_ircu/physical_disk.py:107-110 | the end of an iteration keeps the snapshots numbered by the counter |
| IrcuPhysicalDisk.StepCounter | megautils/raid_ircu/physical_disk.py:59-110 | one iteration keeps the counter invariant; an early return yields disk 0 |
| IrcuPhysicalDisk.IdsFromCounter | megautils/raid_ircu/physical_disk.py:59-69 | from a fresh object the listed ids are integers below the number of boundaries; the list starts at disk 0 and each id equals the one before it or is one more (0, 1, 2, … with no gap); single mode returns disk 0 |
| IrcuPhysicalDisk.EveryLineOnceIdSet | megautils/raid_ircu/physical_disk.py:107-108 | flagged: once the id is set and with no terminator, multi mode lists one snapshot per line plus one per boundary |
| IrcuPhysicalDisk.StepGrowth | megautils/raid_ircu/physical_disk.py:61-108 | with the id set, a boundary line appends two snapshots and any other line one |
| IrcuPhysicalDisk.FinishKeepsOnline | megautils/raid_ircu/physical_disk.py:107-110 | the end of an iteration keeps every snapshot 'Online' |
| IrcuPhysicalDisk.StepKeepsOnline | megautils/raid_ircu/physical_disk.py:60-110 | no line changes `firmware_state` |
| IrcuPhysicalDisk.AlwaysOnline | megautils/raid_ircu/physical_disk.py:39 | flagged: starting from `__init__`'s 'Online', every listed or returned disk is 'Online' |
| IrcuPhysicalDisk.DriveTypeNameError | megautils/raid_ircu/physical_disk.py:104-106 | flagged: the '  Drive Type' branch always raises NameError for `delim` |
| IrcuPhysicalDisk.SerialNoBranch | megautils/raid_ircu/physical_disk.py:92-94 | '  Serial No' sets `serial_no` to `int()` of the text and fails exactly when `int()` does |
| IrcuPhysicalDisk.SerialNoLookup | megautils/raid_ircu/physical_disk.py:92 | '  Serial No' selects the `serial_no` branch |
| IrcuPhysicalDisk.UnitSerialNoBranch | megautils/raid_ircu/physical_disk.py:95-97 | '  Unit Serial No' sets `unit_serial_no` to the stripped text, not `serial_no` |
| IrcuPhysicalDisk.SizeBranch | megautils/raid_ircu/physical_disk.py:79 | '  Size' selects the `size` branch cut at '/' and is not the slot line |
| IrcuPhysicalDisk.SizeCut | megautils/raid_ircu/physical_disk.py:80-82 | the cut text is the stripped value before the first '/' |
| IrcuPhysicalDisk.SizeField | megautils/raid_ircu/physical_disk.py:79-82 | `size` is the integer between ':' and the first '/', and the line fails exactly when that text is not an integer |
| IrcuPhysicalDisk.SizeSlashFirst | megautils/raid_ircu/physical_disk.py:79-82 | a size line whose first '/' comes no later than its first ':' slices an empty text, and `int('')` raises ValueError |
| IrcuPhysicalDisk.FlushSpec | megautils/raid_ircu/physical_disk.py:44-50 | nothing is issued exactly when the adapter is None, and then InvalidParameterValue is raised; otherwise `<adapter> LIST` is issued |
| IrcuPhysicalDisk.PhysicalDisk.constructor | megautils/raid_ircu/physical_disk.py:24-39 | a new disk holds the given enclosure, slot and adapter, no id, the `__init__` defaults and 'Online' |
| IrcuPhysicalDisk.PhysicalDisk.ReadBoundary | megautils/raid_ircu/physical_disk.py:61-69 | the boundary branch updates the object as `Boundary` says |
| IrcuPhysicalDisk.PhysicalDisk.ApplyField | megautils/raid_ircu/physical_disk.py:70-106 | the chain updates the object as `SetField` says, or raises and leaves it unchanged |
| IrcuPhysicalDisk.PhysicalDisk.HandleLine | megautils/raid_ircu/physical_disk.py:60-110 | one loop iteration updates the object as `LineStep` says |
| IrcuPhysicalDisk.PhysicalDisk.Handle | megautils/raid_ircu/physical_disk.py:57-111 | final state and returned value are those of `Parse`, starting the counter at 0 |
| IrcuPhysicalDisk.PhysicalDisk.Flush | megautils/raid_ircu/physical_disk.py:44-50 | issues, raises and updates as `FlushSpec` says |
| IrcuPhysicalDisk.PhysicalDisk.GetPhysicalDisks | megautils/raid_ircu/physical_disk.py:52-55 | issues `<adapter> LIST` and parses in multi mode; a tool error leaves the object unchanged |
| IrcuAdapter.Countdown | megautils/raid_ircu/adapter.py:53-56 | an ' Index' line takes one off `ready`; the line seen at 1 takes it to 0; any other line leaves it |
| IrcuAdapter.Tokens | megautils/raid_ircu/adapter.py:58 | the space-separated tokens of a row, with no empty token |
| IrcuAdapter.LineStep | megautils/raid_ircu/adapter.py:51-63 | single mode returns the first snapshot once one exists; the object never changes; in single mode a row with no token raises IndexError and a row whose first token differs from the id is skipped; in multi mode `and` short-circuits and every row raises NameError for `valuedds`; other lines append the object if it has an id |
| IrcuAdapter.Parse | megautils/raid_ircu/adapter.py:47-65 | `_handle` as a fold of `LineStep` over the output lines, giving the object's final state and what `_handle` returns; `Handle` is proved equal to it, and `MultiNeverLists`, `IntIdSkipsRows` and `FlushReturnsSelf` state its properties |
| IrcuAdapter.ParseStep | megautils/raid_ircu/adapter.py:47-65 | the fold advances by one line exactly as the loop does |
| IrcuAdapter.ReadyHolds | megautils/raid_ircu/adapter.py:53-56 | without ' Index' lines the counter stays where it is (unless it is 1) |
| IrcuAdapter.ReadyAppend | megautils/raid_ircu/adapter.py:49-56 | the counter after two blocks of lines is the counter after the first, continued over the second |
| IrcuAdapter.TableCountdown | megautils/raid_ircu/adapter.py:49-56 | for a table: 2 before the ' Index' header, 1 after it, 0 after the separator line |
| IrcuAdapter.TableHasRow | megautils/raid_ircu/adapter.py:57 | a line after header and separator that is not the 'SAS3IRU' banner is taken as a row |
| IrcuAdapter.MultiNeverLists | megautils/raid_ircu/adapter.py:57-63 | flagged: from `id=None` the object never changes; output with no row lists nothing; any row, even one with no token, raises NameError for `valuedds` |
| IrcuAdapter.IntIdSkipsRows | megautils/raid_ircu/adapter.py:59-60 | in single mode an integer id never equals a string token, so every row is skipped |
| IrcuAdapter.FlushReturnsSelf | megautils/raid_ircu/adapter.py:51-52 | flushing an adapter that has an id returns the object itself at the second line when the first is not a row |
| IrcuAdapter.FlushSpec | megautils/raid_ircu/adapter.py:29-36 | without an id nothing is issued and InvalidParameterValue is raised; otherwise `<id> DISPLAY` is issued and its output parsed in single mode |
| IrcuAdapter.Adapter.constructor | megautils/raid_ircu/adapter.py:26-27 | a new adapter holds its id |
| IrcuAdapter.Adapter.HandleLine | megautils/raid_ircu/adapter.py:51-63 | one loop iteration returns what `LineStep` says |
| IrcuAdapter.Adapter.Handle | megautils/raid_ircu/adapter.py:47-65 | the returned value is that of `Parse` with `ready` starting at 2 |
| IrcuAdapter.Adapter.Flush | megautils/raid_ircu/adapter.py:29-36 | issues and returns as `FlushSpec` says |
| IrcuAdapter.Adapter.GetAdapters | megautils/raid_ircu/adapter.py:41-45 | issues `LIST` and parses its output in multi mode, or returns the tool's error; with `MultiNeverLists`, from `id=None` any table row raises NameError |

## Left out

- Process invocation is not modelled: `megautils/raid/mega.py` (`Mega.command`, the binary path check and output decoding). The tool is the function parameter `Tool`, which is deterministic and returns the output as lines. `megautils/raid_ircu/mega.py` is not part of this model.
- Output as lines: the code iterates `retstr` directly (MegaCLI virtual drive, SAS IR volume), calls `readlines()` (adapters, SAS IR disk, `create`) or names `readlines` without calling it (MegaCLI physical disk, raid/physical_disk.py:78). On the `str` that `command` returns, these would iterate characters or fail. The model gives every parser the list of output lines. For the MegaCLI physical disk, `HandleAsWritten` is the loop as written, and `Parse`, `PhysicalDisk.Handle`, `Flush` and `GetPhysicalDisks` model the intended `readlines()` loop.
- `float()` of the MegaCLI size fields (raid/physical_disk.py:114-122) is not modelled. The stored value is the cut text, so a size text that `float()` would reject does not raise ValueError in the model.
- MegaPhysicalDisk.SetField: does not raise ValueError for a Raw, Non Coerced or Coerced Size text that is not a float, because floats are not modelled.
- jsonschema validation and the schema file load in `validate_raid_schema` are not modelled. They use a foreign library and a data file that is not part of this model; only the minimum-disk loop is modelled.
- `str2bool` and the constants of the `mega` modules (`RAID_*`, `RAID_LEVEL_INPUT_MAPPING`, `RAID_LEVEL_MIN_DISKS`, the IR `DISK_TYPE_MAP`) are not defined in any file of this model. They are parameters: `str2bool`, `CliConstants`, `IrConstants` and the IR allocator's `Tables`. `mega.mega.RAID_10` in the SAS IR `create` is read as the IR module's RAID 10 constant.
- `get_physical_drivers`, `get_virtual_drivers` and `set_boot_able` are not modelled. They only chain a flush with calls modelled here (`set_boot_able` issues one more command).
- The SAS IR allocator builds its own `Adapter(id=adapter_id)` and calls `get_physical_drivers` (raid_ircu/disk_allocator.py:31, 38). The model takes the disk inventory as an input. `IrcuPdAllocation` connects it to the IR parser's output.
- The IR physical disk imports the MegaCLI `Mega` client (raid_ircu/physical_disk.py:19). The model only sees the issued command line and its output, so which binary runs is not captured.
- The IR physical disk's `__flush__` parses in single mode into the object and discards the result. The model returns the error and the issued command.
- Integer division: `len(disks) / k` in `create` (raid/virtual_driver.py:137-152) is read as Python 2 floor division. Under Python 3, `range` of a float would raise TypeError.
- MegaDiskAllocator.AllocateInto: writes the result of `AllocateDisks`, whose filter reads `firmware_state` instead of the `x.state` of raid/disk_allocator.py:55. As written, every non-empty inventory raises AttributeError('state') and nothing is written (`AllocateAsWritten`, `AsWrittenNeverSucceeds`). The final `n - 1` slice of line 84 is kept as written.
- IrcuPdAllocation.ToDisk: a `size` that is not an integer is seen as 0, and the contract does not state the size or the interface. The allocator's filter tests the firmware state first, and every parsed disk is 'Online', so neither is ever read.
- Logging (`LOG.info`, `LOG.debug`) and `hardware_manager.py` (agent plumbing that calls the operations modelled here) are not modelled.
- Deep copies (`copy.deepcopy`) are implicit: snapshots are Dafny values, so they never alias the accumulator object.
- Concurrency, timeouts and the ironic agent's sequencing of logical disks are not modelled. No sorting of logical disks exists in the modelled files.

## Findings

| source | as written | input that shows it | evidently intended | confidence | as-written member | corrected member |
|---|---|---|---|---|---|---|
| megautils/raid/disk_allocator.py:55-56 | the filter reads `x.state`; a MegaCLI `PhysicalDisk` has `firmware_state` and no `state` attribute | any non-empty inventory with a known RAID level raises AttributeError | filter on `firmware_state`, as the SAS IR variant does | high, not executed | MegaDiskAllocator.AsWrittenNeverSucceeds | MegaDiskAllocator.OneShortOfIrcu |
| megautils/raid/disk_allocator.py:83-84 | `physical_disks` is the first `number_of_physical_disks - 1` references | with line 55 corrected to `firmware_state` (as written, line 55 raises AttributeError first): two spare SAS disks, RAID 1, size 'MAX' give one reference ("32:0") for a level that needs two | exactly `number_of_physical_disks` references, as the SAS IR variant writes | high, not executed | MegaDiskAllocator.Raid1GetsOneDisk | IrcuDiskAllocator.AllocateDisksExact |
| megautils/raid/physical_disk.py:78 | the loop names `retstr.readlines` without calling it, on the `str` that `command` returns | any output, even one with no line: AttributeError (`'str' object has no attribute 'readlines'`) instead of a list of disks | iterate over the lines of the output, as the other parsers do | high, not executed | MegaPhysicalDisk.ReadlinesUncalled | MegaPhysicalDisk.PhysicalDisk.Handle |
