# HyperV systems driver: boot-order policy and dispatch tables

This project models the logic of the Hyper-V backend of the sushy-tools
Redfish emulator (`HyperVDriver`). It covers the parts that decide something
instead of forwarding a call to the hypervisor's management library:

* **Power control** (`power.dfy`): the verb-to-state table installed by
  `initialize`, the translation of a requested transition into a
  `set_vm_state` call, a soft shutdown or `NotSupportedError`, the rule that
  wraps every non-Fishy exception into `FishyError`, and the reading of the
  power state.
* **Generation-1 boot order** (`boot_gen1.dfy`): the source-to-token table,
  reading the first token back to its name, and setting a boot source by
  `list.remove` followed by `insert(0, ...)` (move to front).
* **Generation-2 boot order** (`boot_gen2.dfy`): classifying the first
  boot-source record, and setting a boot source by the loop that collects the
  matching records followed by the `not in` comprehension that appends the
  rest. This is shown to be a stable partition.
* **Driver** (`driver.dfy`): the generation dispatch of `get_boot_device` and
  `set_boot_device`, `get_boot_mode`, `get_nics`, and a `VirtualMachine`
  class whose set methods write the new boot order back. If an exception is
  raised, nothing is written.

`errors.dfy` holds the exception kinds and `wrappers.dfy` holds Option and Result.

Modelling choices:

* Hypervisor constants are abstract tokens. Each is a datatype constructor
  (`Enabled`, `BootNetwork`, `Gen1`, ...), plus an `Other...(code)`
  constructor for values the driver does not name.
* Boot sources and power verbs are strings, as in the source. So an unmapped
  verb or source is an ordinary input.
* A generation-2 boot device is an opaque handle. A `Classifier` function
  stands for the object lookups. It maps a handle to its `BootSourceType`
  (1 = drive, 2 = network, as in the source). It also gives the
  `ResourceSubType` of the first resource in the record's logical-identity
  association, or `None` when that association is empty. In that case
  Python's `[0]` raises IndexError.
* Calls into the hypervisor become inputs. The current boot order, the
  classifier, the VM state, the NIC list, and the exception a power call
  raises are all parameters. The persisted order is an output or a field
  update.
* Exceptions are values of `Errors.Exception` returned in a `Result` / `Option`.

### Behaviour worth noting

The docstrings promise more than the code delivers in a few places. The model follows the code:

* Generation-1 `set` with an unmapped source: `_BOOT_ORDER_MAP.get`
  (hypervdriver.py:173) gives `None`, and `list.remove(None)` (line 174)
  raises ValueError, because the hypervisor's boot order never holds `None`.
  The model returns ValueError.
* The `get_power_state` docstring (lines 102-103) promises `None` when the
  state cannot be determined. Line 107 never returns it: it answers "On"
  for the enabled state and "Off" for every other.
* The `get_boot_device` docstring (lines 163-164) promises `None` when the
  device cannot be determined. The generation-1 path instead raises
  IndexError for an empty order and StopIteration for an unmapped first
  token (lines 156-158). The generation-2 path raises IndexError for a
  drive record with no associated resource (lines 147-148).
* The `set_boot_device` docstring (line 216) documents `FishyError`. Nothing
  in it is wrapped, so ValueError (line 174) and IndexError (lines 192-194)
  escape unchanged. Only `set_power_state` wraps exceptions into
  `FishyError` (lines 127-133).
* In generation 2, `set` looks up the associated resource for every record
  that is not a network record matched by Pxe (lines 188-194). So a record
  with no association makes `set` fail with IndexError, even when the source
  is Pxe. The model keeps this.
* A network record is read as "Pxe" whatever it is associated with
  (lines 144-145). `set` for Hdd or Cd, however, goes by the associated
  subtype only (lines 196-201). So reading back the source that was set is
  proved only when a drive subtype is associated with drive records alone
  (`BootGen2.DriveConsistent`).

## Model

| member | source | states |
|---|---|---|
| `Errors.Wrap` | sushy_tools/emulator/resources/systems/hypervdriver.py:127-133 | a Fishy error passes through unchanged; any other exception becomes FishyError; the result is always Fishy |
| `Power.ActionFor` | sushy_tools/emulator/resources/systems/hypervdriver.py:42-47 | On/ForceOn give set_vm_state(ENABLED), ForceOff gives DISABLED, ForceRestart gives REBOOT, GracefulShutdown gives soft shutdown, and exactly the remaining verbs are unsupported |
| `Power.SetPowerState` | sushy_tools/emulator/resources/systems/hypervdriver.py:118-133 | succeeds exactly when the verb has a call and the hypervisor raises nothing; an unsupported verb raises NotSupportedError; a Fishy hypervisor error is re-raised as is, any other becomes FishyError; every failure is Fishy |
| `Power.GetPowerState` | sushy_tools/emulator/resources/systems/hypervdriver.py:106-107 | "On" exactly when the VM state is ENABLED, otherwise "Off"; never absent |
| `Power.ForcedTransitionReadBack` | sushy_tools/emulator/resources/systems/hypervdriver.py:42-45 | On and ForceOn succeed with set_vm_state(ENABLED), which get_power_state reports as "On"; ForceOff succeeds with DISABLED, reported as "Off"; i.e. if the hypervisor then reports the requested token, the power state is the one the verb names |
| `BootGen1.FirstKeyFor` | sushy_tools/emulator/resources/systems/hypervdriver.py:157-158 | the generator scan over the table returns a key that maps to the token, or is exhausted only when no key maps to it |
| `BootGen1.GetBootDeviceGen1` | sushy_tools/emulator/resources/systems/hypervdriver.py:155-158 | an empty order raises IndexError; otherwise it succeeds exactly when the first token is a table value, giving the key mapped to it, and raises StopIteration otherwise |
| `BootGen1.FirstIndex` | sushy_tools/emulator/resources/systems/hypervdriver.py:174 | the position list.remove deletes: an occurrence of the element with none before it |
| `BootGen1.SetBootOrderGen1` | sushy_tools/emulator/resources/systems/hypervdriver.py:171-177 | succeeds exactly when the source is mapped and its token is in the order, giving the token moved to the front; otherwise ValueError |
| `BootGen1.MoveToFrontIsRemoveThenInsert` | sushy_tools/emulator/resources/systems/hypervdriver.py:174-175 | the new order is the token followed by the old order with its first occurrence removed (a recursive list.remove) |
| `BootGen1.MoveToFrontPermutes` | sushy_tools/emulator/resources/systems/hypervdriver.py:174-175 | length and multiset of tokens are unchanged and the token is first |
| `BootGen1.MoveToFrontKeepsOthersInOrder` | sushy_tools/emulator/resources/systems/hypervdriver.py:174-175 | the entries other than the token keep their relative order |
| `BootGen1.SetBootOrderGen1Idempotent` | sushy_tools/emulator/resources/systems/hypervdriver.py:171-177 | a successful set followed by a set of the same source gives the same order as setting it once |
| `BootGen1.MoveToFrontIdempotent` | sushy_tools/emulator/resources/systems/hypervdriver.py:174-175 | moving the token that is already first to the front again gives the same order |
| `BootGen1.MoveToFrontKeepsDistinct` | sushy_tools/emulator/resources/systems/hypervdriver.py:171-177 | an order without duplicate tokens stays without duplicates |
| `BootGen1.BootOrderMapInjective` | sushy_tools/emulator/resources/systems/hypervdriver.py:49-53 | the three table tokens are distinct, so a token names one source |
| `BootGen1.GetAfterSetGen1` | sushy_tools/emulator/resources/systems/hypervdriver.py:155-177 | after a successful set, get returns the source that was set |
| `BootGen2.CollectMatching` | sushy_tools/emulator/resources/systems/hypervdriver.py:183-202 | the loop collects exactly the matching devices in their original order, or raises IndexError when some record is not resolvable, that is, it is neither a network record with source Pxe nor a record with an associated resource |
| `BootGen2.SetBootOrderGen2` | sushy_tools/emulator/resources/systems/hypervdriver.py:179-207 | fails, with IndexError, exactly when some record cannot be classified |
| `BootGen2.SelectMembership` | sushy_tools/emulator/resources/systems/hypervdriver.py:185-202 | a device is collected exactly when it is in the order and matches the source |
| `BootGen2.UncollectedIsRest` | sushy_tools/emulator/resources/systems/hypervdriver.py:204-205 | the `not in new_boot_devices` comprehension keeps exactly the non-matching devices, in order |
| `BootGen2.SetIsStablePartition` | sushy_tools/emulator/resources/systems/hypervdriver.py:183-207 | a successful set gives the matching devices, then the non-matching ones, each part in its original order |
| `BootGen2.SetPermutes` | sushy_tools/emulator/resources/systems/hypervdriver.py:183-207 | a successful set keeps the length and the multiset of devices |
| `BootGen2.SetWithoutMatchKeepsOrder` | sushy_tools/emulator/resources/systems/hypervdriver.py:183-207 | when no device matches, the order is unchanged |
| `BootGen2.SetPutsMatchFirst` | sushy_tools/emulator/resources/systems/hypervdriver.py:183-207 | when some device matches, the new first device matches |
| `BootGen2.SetIdempotent` | sushy_tools/emulator/resources/systems/hypervdriver.py:179-207 | setting the same source twice gives the same order as setting it once |
| `BootGen2.GetBootDeviceGen2` | sushy_tools/emulator/resources/systems/hypervdriver.py:135-153 | an empty order gives None; a network first record gives Pxe whatever it is associated with; a drive first record gives Hdd for a disk subtype, Cd for a dvd subtype, None for any other subtype, and IndexError when it has no associated resource; any other record type gives None |
| `BootGen2.GetAgreesWithMatch` | sushy_tools/emulator/resources/systems/hypervdriver.py:135-153 | when drive subtypes sit only on drive records, get reports a source exactly when set would collect the first record for it |
| `BootGen2.GetAfterSetGen2` | sushy_tools/emulator/resources/systems/hypervdriver.py:135-207 | after a successful set for a source some device matches, get returns that source |
| `HyperVDriver.GetBootMode` | sushy_tools/emulator/resources/systems/hypervdriver.py:229-230 | UEFI exactly for generation 2, otherwise Legacy |
| `HyperVDriver.OtherGenerationMixesPaths` | sushy_tools/emulator/resources/systems/hypervdriver.py:166-230 | for a generation that is neither 1 nor 2, get_boot_device is the generation-2 read, but the boot mode is Legacy |
| `HyperVDriver.GetBootDevice` | sushy_tools/emulator/resources/systems/hypervdriver.py:160-169 | for generation 1 it is the generation-1 read of the first token (wrapped in Some, its errors unchanged); for every other generation it is the generation-2 read of the first record; a named result is Pxe, Hdd or Cd |
| `HyperVDriver.GetNics` | sushy_tools/emulator/resources/systems/hypervdriver.py:284-290 | one entry per adapter, in order, with id and mac taken from that adapter |
| `HyperVDriver.VirtualMachine.SetBootDeviceGen1` | sushy_tools/emulator/resources/systems/hypervdriver.py:171-177 | the persisted BootOrder becomes the moved-to-front order; on ValueError it is unchanged |
| `HyperVDriver.VirtualMachine.SetBootDeviceGen2` | sushy_tools/emulator/resources/systems/hypervdriver.py:179-208 | the persisted BootSourceOrder becomes the partitioned order; on IndexError it is unchanged |
| `HyperVDriver.VirtualMachine.SetBootDevice` | sushy_tools/emulator/resources/systems/hypervdriver.py:210-221 | for generation 1 it persists the generation-1 set and, on success, get reports the source that was set; for every other generation it persists the generation-2 set and get reports the source when a device matches and drive subtypes sit on drive records; on failure nothing changes |

## Left out

- The hypervisor library itself (VM lookup, WMI object and association lookups, `set_boot_order`, `_modify_virtual_system`, `set_vm_state`, `soft_shutdown_vm`, `list_instances`, `get_vm_id`, `get_vm_summary_info`, `_get_vm_nics`): these are foreign calls. Their results are parameters, and the calls made and the orders persisted are outputs.
- The effect of `set_vm_state` and `soft_shutdown_vm` on the VM: this belongs to the hypervisor. `Power.ForcedTransitionReadBack` only says what is read if the hypervisor then reports the requested token. It leaves out ForceRestart, because a restart that has taken effect leaves the VM running.
- `initialize`: it stores the configuration, the logger and the library handle, which are environment plumbing. Its two tables are the module constants `Power.VmStateMap` and `BootGen1.BootOrderMap`. The three power tokens are taken to be non-zero (truthy), so `if vm_state` tests whether the verb is in the table.
- The detection at import time of whether the hypervisor library is installed (`is_loaded`): this is environment plumbing.
- The `driver` and `systems` properties, `uuid`, `name`, `get_total_memory` and `get_total_cpus`: each returns a constant, returns its argument, or forwards one library call.
- The stubs: the BIOS and boot-image operations always raise NotSupportedError, `set_boot_mode` does nothing, `get_simple_storage_collection` returns an empty dict, and `find_or_create_storage_volume` returns None. There is no logic to model.
- The text of FishyError messages: only the kind of exception is modelled.
- Exceptions raised by the library inside the boot and power-reading operations: they propagate unchanged and are not represented.
- `BootGen1.SetBootOrderGen1`: treats an unmapped source as failing directly with ValueError. It does not first compute `None` and search for it, because the hypervisor's boot order never holds `None`.
