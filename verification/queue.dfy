/**
  The queue engine of queue.go: a FIFO sequence of items held in memory
  and mirrored, after every successful mutation, by a whole-file rewrite of
  a JSON database file, with one mutex around each operation.

  The file is an abstract `FileState`; the JSON text is not modelled, only
  which item sequence it encodes or that it encodes none. The outcomes of
  file-system calls (create, close, write) are `bool` inputs, the clock
  reading is an `Instant` input, and the mutex is a `locked` flag.
*/
module Queue {
  import opened Wrappers
  import Rfc3339

  /** One queued value with the time it was added (`item`, queue.go:13-16). */
  datatype Item<V> = Item(value: V, createdAt: string)

  /** What the database file holds: nothing at all, text that is not a JSON array of items, or such an array. */
  datatype Content<V> = Blank | Garbage | Json(items: seq<Item<V>>)

  /** The database file at `dbPath`: absent, present but not readable, or present with some content. */
  datatype FileState<V> = Missing | Unreadable | Stored(content: Content<V>)

  /** The error kinds `os.ReadFile` can report, as the constructor's switch tells them apart. */
  datatype ReadError = NotExist | AlreadyExists | OtherReadError

  /** Every error the engine returns; each wraps an underlying cause in the source. */
  datatype Error = CreateFailed | CloseFailed | ReadFailed | ParseFailed | WriteFailed

  /** True when the file holds exactly the JSON array of `items`. */
  ghost predicate Mirrors<V>(disk: FileState<V>, items: seq<Item<V>>) {
    disk == Stored(Json(items))
  }

  // ---------------------------------------------------------------------
  // Loading (NewFileQueue)
  // ---------------------------------------------------------------------

  /** `os.ReadFile`: the content read, or the error with no content. */
  function ReadFile<V>(disk: FileState<V>): (Content<V>, Option<ReadError>)
  {
    match disk
    case Missing => (Blank, Some(NotExist))
    case Unreadable => (Blank, Some(OtherReadError))
    case Stored(c) => (c, None)
  }

  /** `json.Unmarshal` into a slice of items: only a JSON array of items parses, and then to exactly that array. */
  function Unmarshal<V>(c: Content<V>): Result<seq<Item<V>>, Error>
  {
    match c
    case Json(items) => Success(items)
    case _ => Failure(ParseFailed)
  }

  /** The file after construction, and the loaded items or the error. */
  datatype Opening<V> = Opening(disk: FileState<V>, loaded: Result<seq<Item<V>>, Error>)

  /**
    The load-or-create decision of `NewFileQueue`. A missing file is created
    empty (and stays missing if `os.Create` fails); any other read error is
    not "already exists", so it reaches the parse step with no bytes and
    fails there; a readable file loads exactly the items it encodes.
  */
  function Open<V>(disk: FileState<V>, createOk: bool, closeOk: bool): (r: Opening<V>)
    ensures r.loaded.Success? <==> (disk.Missing? && createOk && closeOk) || (disk.Stored? && disk.content.Json?)
    ensures disk.Missing? && r.loaded.Success? ==> r.loaded.value == []
    ensures disk.Stored? && r.loaded.Success? ==> r.loaded.value == disk.content.items
    ensures disk.Missing? && !createOk ==> r == Opening(Missing, Failure(CreateFailed))
    ensures disk.Missing? && createOk ==> r.disk == Stored(Blank)
    ensures disk.Missing? && createOk && !closeOk ==> r.loaded == Failure(CloseFailed)
    ensures !disk.Missing? ==> r.disk == disk
    ensures disk.Unreadable? || (disk.Stored? && !disk.content.Json?) ==> r.loaded == Failure(ParseFailed)
  {
    var (content, err) := ReadFile(disk);
    if err == Some(NotExist) then
      if !createOk then Opening(disk, Failure(CreateFailed))
      else if !closeOk then Opening(Stored(Blank), Failure(CloseFailed))
      else Opening(Stored(Blank), Success([]))
    else if err == Some(AlreadyExists) then
      Opening(disk, Failure(ReadFailed))
    else
      Opening(disk, Unmarshal(content))
  }

  // ---------------------------------------------------------------------
  // The engine's state and its two mutations, as functions
  // ---------------------------------------------------------------------

  /** The memory, the file and the mutex of one queue. */
  datatype State<V> = State(items: seq<Item<V>>, disk: FileState<V>, locked: bool)

  /** What an operation leaves behind and returns to its caller. */
  datatype Reply<V> = Reply(state: State<V>, value: Option<V>, err: Option<Error>)

  /** `updateDB`: a whole-file overwrite with the JSON of `items`, or, when marshalling or writing fails, the file as it was. */
  function Persist<V>(items: seq<Item<V>>, disk: FileState<V>, writeOk: bool): (FileState<V>, Option<Error>)
  {
    if writeOk then (Stored(Json(items)), None) else (disk, Some(WriteFailed))
  }

  /**
    `Add`: lock, append the item, rewrite the file; unlock only if the
    rewrite succeeded. A failed rewrite leaves the item in memory, the file
    as it was and the mutex held.
  */
  function AddStep<V>(s: State<V>, value: V, createdAt: string, writeOk: bool): Reply<V>
    requires !s.locked
  {
    var items := s.items + [Item(value, createdAt)];
    var (disk, err) := Persist(items, s.disk, writeOk);
    Reply(State(items, disk, err.Some?), None, err)
  }

  /**
    `Pop`: lock; on an empty queue unlock and return no value and no error;
    otherwise drop the head, rewrite the file, and return the head's value
    (without its timestamp) and unlock only if the rewrite succeeded.
  */
  function PopStep<V>(s: State<V>, writeOk: bool): Reply<V>
    requires !s.locked
  {
    if |s.items| == 0 then Reply(s, None, None)
    else
      var head := s.items[0];
      var items := s.items[1..];
      var (disk, err) := Persist(items, s.disk, writeOk);
      if err.Some? then Reply(State(items, disk, true), None, err)
      else Reply(State(items, disk, false), Some(head.value), None)
  }

  // ---------------------------------------------------------------------
  // FileQueue
  // ---------------------------------------------------------------------

  /** `FileQueue` (queue.go:19-23): the items in memory, the file they are persisted to, and the mutex. */
  class FileQueue<V> {
    var items: seq<Item<V>>
    var disk: FileState<V>
    var locked: bool
    const dbPath: string

    ghost function Snapshot(): State<V>
      reads this
    {
      State(items, disk, locked)
    }

    constructor (dbPath: string, items: seq<Item<V>>, disk: FileState<V>)
      ensures this.dbPath == dbPath && this.items == items && this.disk == disk && !locked
    {
      this.dbPath := dbPath;
      this.items := items;
      this.disk := disk;
      locked := false;
    }

    /** Overwrites the whole file with the current items; on failure the file is left as it was. */
    method UpdateDB(writeOk: bool) returns (err: Option<Error>)
      modifies this`disk
      ensures (disk, err) == Persist(items, old(disk), writeOk)
      ensures writeOk ==> Mirrors(disk, items) && err.None?
      ensures !writeOk ==> disk == old(disk) && err == Some(WriteFailed)
    {
      if !writeOk {
        return Some(WriteFailed);
      }
      disk := Stored(Json(items));
      err := None;
    }

    /** Appends `value` stamped with `now` in the RFC 3339 layout, then rewrites the file. */
    method Add(value: V, now: Rfc3339.Instant, writeOk: bool) returns (err: Option<Error>)
      requires !locked
      requires Rfc3339.Valid(now)
      modifies this
      ensures Reply(Snapshot(), None, err) == AddStep(old(Snapshot()), value, Rfc3339.Format(now), writeOk)
      ensures items == old(items) + [Item(value, Rfc3339.Format(now))]
      ensures writeOk ==> err.None? && Mirrors(disk, items) && !locked
      ensures !writeOk ==> err == Some(WriteFailed) && disk == old(disk) && locked
    {
      locked := true;
      items := items + [Item(value, Rfc3339.Format(now))];
      err := UpdateDB(writeOk);
      if err.Some? {
        return;
      }
      locked := false;
    }

    /** Removes the head and returns its value; an empty queue yields no value and no error. */
    method Pop(writeOk: bool) returns (value: Option<V>, err: Option<Error>)
      requires !locked
      modifies this
      ensures Reply(Snapshot(), value, err) == PopStep(old(Snapshot()), writeOk)
      ensures old(items) == [] ==> items == [] && disk == old(disk) && !locked && value.None? && err.None?
      ensures old(items) != [] ==> items == old(items)[1..]
      ensures old(items) != [] && writeOk ==>
                value == Some(old(items)[0].value) && err.None? && Mirrors(disk, items) && !locked
      ensures old(items) != [] && !writeOk ==>
                value.None? && err == Some(WriteFailed) && disk == old(disk) && locked
    {
      locked := true;
      if |items| == 0 {
        locked := false;
        return None, None;
      }
      var head := items[0];
      items := items[1..];
      err := UpdateDB(writeOk);
      if err.Some? {
        return None, err;
      }
      locked := false;
      value := Some(head.value);
    }
  }

  /** `NewFileQueue`: a ready, unlocked queue holding what `Open` loaded, or the error and no queue. */
  method NewFileQueue<V>(dbPath: string, disk: FileState<V>, createOk: bool, closeOk: bool)
    returns (q: FileQueue?<V>, err: Option<Error>)
    ensures var o := Open(disk, createOk, closeOk);
            match o.loaded
            case Success(items) =>
              q != null && fresh(q) && err.None? && q.dbPath == dbPath
              && q.items == items && q.disk == o.disk && !q.locked
            case Failure(e) => q == null && err == Some(e)
  {
    var o := Open(disk, createOk, closeOk);
    match o.loaded
    case Success(items) =>
      q := new FileQueue(dbPath, items, o.disk);
      err := None;
    case Failure(e) =>
      q := null;
      err := Some(e);
  }
}
