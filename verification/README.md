# simple-queue: the file-backed FIFO queue engine in Dafny

This project models the queue engine of `queue.go`. A `FileQueue` keeps a FIFO sequence of items in memory. Each item is a JSON value plus the RFC 3339 text of the moment it was added. The queue mirrors that sequence in one database file by rewriting the whole file after every change. One mutex guards each `Add` and `Pop`.

Modules:

- `Wrappers` (`wrappers.dfy`): `Option` and `Result`.
- `Rfc3339` (`rfc3339.dfy`): the timestamp text of Go's `time.RFC3339` layout ("2006-01-02T15:04:05Z07:00"). This is a subset of the `date-time` production of section 5.6 of RFC 3339: upper-case T and Z, a four-digit year, seconds 00-59, no fractional seconds. It has a formatter, a parser, and proofs that each undoes the other.
- `Queue` (`queue.dfy`): the item, the abstract database file, the load-or-create decision of `NewFileQueue` (`Open`), and the class `FileQueue`. Its fields `items`, `disk` and `locked` change in place through `Add`, `Pop` and `UpdateDB`. The functions `AddStep` and `PopStep` say what one call does to the triple (items, file, mutex), and each method's postcondition ties it to them.
- `QueueProperties` (`properties.dfy`): runs of `Add`/`Pop` calls in the order the mutex admits them. The lemmas cover FIFO order, conservation of values under any interleaving, and the file mirroring memory. They also cover the queue staying wedged once a rewrite has failed.

The database file is the abstract `FileState`: `Missing`, `Unreadable`, or `Stored` content. The content is `Blank` (zero bytes), `Garbage` (not a JSON array of items) or `Json(items)`. JSON text itself is not modelled. These things are inputs:

- whether `os.Create`, `Close`, and `json.Marshal` together with `os.WriteFile` succeed (`createOk`, `closeOk`, `writeOk`);
- the clock reading (`now`);
- the payload type (`V`).

The mutex is the flag `locked`. `Add` and `Pop` require it clear, because a held mutex would block the caller.

## Behaviour of queue.go worth knowing


- A missing file is created with zero bytes. Reopening that file fails with a parse error, because `json.Unmarshal` rejects empty input. Zero bytes do not read back as an empty queue (`ReopenCreatedFails`).
- A read error other than "does not exist" is never an "already exists" error. So the `os.IsExist` branch (queue.go:51-52) does not catch it. Whatever content was read before the error (none, or a partial prefix) then reaches the parse step and fails there as a parse error, not as a read error (`Open`).
- When the rewrite fails, `Add` and `Pop` return without releasing the mutex. Memory is then one change ahead of the file (the item is already appended, or the head already dropped). A failed `Pop` also does not return the dropped value. After that, every later call blocks (`WedgedAfterFailure`, `MirrorOrWedged`).

## Model

| member | source | states |
|---|---|---|
| `Queue.Open` | queue.go:33-59 | success if and only if the file was missing and both create and close succeeded, or the file holds a JSON array of items. A missing file loads zero items and leaves a present but empty file; a failed create leaves it missing; a failed close still leaves the empty file. An existing file loads its items in file order and is not changed. Unreadable, empty or garbage content fails with a parse error |
| `Queue.NewFileQueue` | queue.go:33-68 | on success returns a fresh, unlocked queue on the given path whose items and file are what `Open` loaded and left; otherwise no queue and `Open`'s error |
| `Queue.FileQueue.constructor` | queue.go:61-65 | the new queue holds the given path, items and file, with the mutex free |
| `Queue.FileQueue.UpdateDB` | queue.go:115-127 | on success the file mirrors the current items and no error is returned; on failure a write error and the file as it was; only the file field changes |
| `Queue.FileQueue.Add` | queue.go:70-86 | items become the old items followed by the new item (value, RFC 3339 text of `now`). On success: no error, the file mirrors the items, the mutex is free. On a failed write: a write error, the file unchanged, the mutex still held. The new state is `AddStep` of the old |
| `Queue.FileQueue.Pop` | queue.go:89-112 | on an empty queue: no value, no error, items and file unchanged, mutex free. Otherwise the items lose their head. On success the head's value (without its timestamp) is returned, the file mirrors the rest and the mutex is free. On a failed write: no value, a write error, the file unchanged, the mutex held. The new state and reply are `PopStep` of the old |
| `Rfc3339.Format` | queue.go:75 | the timestamp text has the date and time separated by "T"; it is 20 characters ending in "Z" exactly when the offset is zero, and 25 characters with a numeric offset otherwise |
| `Rfc3339.Parse` | queue.go:75 | a timestamp parser for the same layout: everything it accepts is a valid civil date and time with an offset within a day |
| `Rfc3339.ParseFormat` | queue.go:75 | parsing the formatted text of any valid instant gives back that instant |
| `Rfc3339.FormatParse` | queue.go:75 | formatting what was parsed reproduces the text, except UTC spelled "+00:00" or "-00:00" (the parser accepts only the layout's subset of RFC 3339) |
| `QueueProperties.RunAppend` | queue.go:70-112 | running one batch of calls and then another equals running them joined, with the handed-out values concatenated |
| `QueueProperties.AddsAppend` | queue.go:73-76 | successful adds put their items at the tail in call order, hand out nothing, keep the mutex free and leave the file mirroring memory |
| `QueueProperties.PopsDrain` | queue.go:99-102 | n successful pops on a queue of at least n items hand out the values of its first n items, oldest first, and leave the rest, mirrored on file |
| `QueueProperties.Fifo` | queue.go:26-29 | adding v1 ... vn to an empty queue and then popping n times returns v1 ... vn in that order and empties the queue |
| `QueueProperties.Conservation` | queue.go:26-29 | for any interleaving of successful calls, the values handed out followed by those still queued equal the values queued at the start followed by those added: nothing lost, duplicated or reordered |
| `QueueProperties.SuccessfulMutationPersists` | queue.go:78-85 | a call that changed the items and returned no error leaves the file equal to memory and the mutex free |
| `QueueProperties.MirrorOrWedged` | queue.go:104-109 | from a queue whose file mirrors memory, any run ends with the file still mirroring memory, or with the mutex held and memory exactly one call ahead of the file: one item appended at the tail, or the file's head dropped |
| `QueueProperties.FreshQueueRuns` | queue.go:40-49 | from the queue opened on a missing file (empty memory, zero-byte file), any run ends with the file mirroring memory, still empty and unchanged, or wedged: with the zero-byte file and one item in memory, or with memory one call ahead of a mirrored file |
| `QueueProperties.WedgedAfterFailure` | queue.go:78-81 | once a run leaves the mutex held, no further calls change anything |
| `QueueProperties.ReopenRestores` | queue.go:53-58 | reopening the file after a successful change loads exactly the items in memory, and leaves the file alone |
| `QueueProperties.ReopenCreatedFails` | queue.go:40-57 | opening a missing path loads zero items, but reopening the empty file it created fails with a parse error |

## Left out

- Real file I/O and JSON: `os.ReadFile`, `os.Create`, `os.WriteFile`, `json.Marshal` and `json.Unmarshal` are library calls. They appear as the abstract `FileState` and `bool` outcomes, and the JSON bytes are not modelled.
- A file holding the JSON literal `null`: Go decodes it to an empty list and the queue opens empty. The model's content has no such case.
- JSON items with missing or extra fields: Go fills in zero values. The model takes the decoded items as given.
- Partial reads: `os.ReadFile` can return the bytes read before a failing read. The model gives no content with any read error other than "does not exist". Either way the parse step fails, unless the error strikes after a complete JSON array; that case is not modelled.
- JSON round trip of payloads: the file stores the items as they are in memory, and reopening it gives them back unchanged (`ReopenRestores`). This holds for the JSON-decoded values the HTTP handlers pass. A Go integer or struct passed to `Add` directly would reload as a float64 or a map.
- Partial writes: `os.WriteFile` truncates before it writes, so a failed write can leave a truncated file. The model keeps the file as it was on any failed write.
- Errors: a failed `json.Marshal` and a failed `os.WriteFile` are both `WriteFailed`. The wrapped error messages are not modelled.
- Blocking and concurrency of `sync.Mutex`: only the `locked` flag is kept. Calls run one after another in the order the mutex admits them, and a call on a held mutex is not allowed.
- `time.Now()`: the clock reading is the `now` parameter.
- `Rfc3339.Format`: years outside 0-9999, offsets with a seconds part, and fractional seconds are not modelled. Go prints such times in wider or truncated forms.
- "No value": `Pop` returns Go's `nil` both for an empty queue and for a stored JSON `null`. The model keeps the two apart (`None` versus `Some` of the payload).
- The HTTP handlers (`http_methods.go`) and process start-up (`main.go`): they are transport and bootstrap with no state of their own. `main.go` is not part of this model.
