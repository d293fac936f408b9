/** The file side of the terminal's surroundings: saving an attachment to disk, reading files to send. The
    disk is a map from paths to bytes, and each operation on it may fail. */
module CompanionDriver {
  import opened Bytes
  import opened CompanionProtocol
  import CC = CompanionCache

  type Path = string
  type Disk = map<Path, seq<Byte>>

  const FEED_ROUNDS := 8

  datatype Saving = Saving(fileId: Id, path: Path, partial: Path)

  datatype Sending = Sending(paths: seq<Path>, at: nat)

  datatype Driver = Driver(client: Client, saving: Option<Saving>, sending: Option<Sending>, disk: Disk)

  /** How the disk treats one command: what works, and what a failed write leaves behind. */
  datatype Luck = Luck(creates: bool, writes: bool, spoiled: seq<Byte>, renames: bool, removes: bool, opens: bool, readable: bool)

  datatype OutgoingFile = OutgoingFile(path: Path, name: Text, preview: Option<seq<Byte>>)

  datatype Command =
    | SaveFile(fileId: Id, chunkTotal: nat, chunkBytes: u64, path: Path)
    | CancelSave
    | SendFiles(chat: Id, files: seq<OutgoingFile>, text: Text)
    | CancelSending
    | Through(input: Input)

  /** Until it is whole, a file goes by another name. */
  function PartialName(path: Path): Path {
    path + ".part"
  }

  function Zeros(n: nat): (z: seq<Byte>)
    ensures |z| == n
  {
    seq(n, _ => 0)
  }

  /** Writing at a place: what is there is replaced, what is not is filled with zeros. */
  function WriteAt(content: seq<Byte>, offset: nat, bytes: seq<Byte>): seq<Byte> {
    if bytes == [] then content
    else
      (if offset <= |content| then content[..offset] else content + Zeros(offset - |content|)) + bytes +
      (if offset + |bytes| < |content| then content[offset + |bytes|..] else [])
  }

  function ContentOf(disk: Disk, path: Path): seq<Byte> {
    if path in disk then disk[path] else []
  }

  /** What reading `len` bytes from a place gives: fewer past the end. */
  function ReadAt(content: seq<Byte>, offset: nat, len: nat): seq<Byte> {
    if offset >= |content| then [] else if offset + len > |content| then content[offset..] else content[offset..offset + len]
  }

  function Remove(disk: Disk, path: Path, luck: Luck): Disk {
    if luck.removes then disk - {path} else disk
  }

  function AbandonSave(d: Driver, luck: Luck): Driver {
    if d.saving.None? then d else d.(saving := None, disk := Remove(d.disk, d.saving.value.partial, luck))
  }

  // ---- what the driver answers itself ----

  datatype Shown = Shown(driver: Driver, answers: seq<Input>)

  function OnFileBytes(d: Driver, offset: nat, bytes: seq<Byte>, luck: Luck): Shown {
    if d.saving.None? then Shown(d, [])
    else
      var partial := d.saving.value.partial;
      if luck.writes then Shown(d.(disk := d.disk[partial := WriteAt(ContentOf(d.disk, partial), offset, bytes)]), [])
      else Shown(AbandonSave(d.(disk := d.disk[partial := luck.spoiled]), luck), [CancelFetch])
  }

  /** A file gets its name by the last act of all. */
  function OnFileDone(d: Driver, luck: Luck): Shown {
    if d.saving.None? then Shown(d, [])
    else
      var s := d.saving.value;
      if luck.renames && s.partial in d.disk then
        Shown(d.(saving := None, disk := d.disk[s.path := d.disk[s.partial]] - (if s.partial == s.path then {} else {s.partial})), [])
      else Shown(d.(saving := None, disk := Remove(d.disk, s.partial, luck)), [])
  }

  function GiveUpSending(d: Driver): Shown {
    Shown(d.(sending := None), [CancelSend])
  }

  function OnNeedChunk(d: Driver, which: nat, index: nat, offset: nat, len: nat, luck: Luck): Shown {
    if d.sending.None? then Shown(d, [])
    else
      var s := d.sending.value;
      if which != s.at && which >= |s.paths| then Shown(d, [])
      else if which >= |s.paths| || s.paths[which] !in d.disk || !luck.readable || (which != s.at && !luck.opens) then GiveUpSending(d)
      else
        Shown(d.(sending := Some(s.(at := which))), [PutChunk(index, ReadAt(d.disk[s.paths[which]], offset, len))])
  }

  function ShowEvent(d: Driver, event: Event, luck: Luck): Shown {
    match event
    case FileBytes(_, _, offset, bytes) => OnFileBytes(d, offset, bytes, luck)
    case FileDone(_) => OnFileDone(d, luck)
    case NeedChunk(_, which, index, offset, len) => OnNeedChunk(d, which, index, offset, len, luck)
    case Sent(_) => Shown(d.(sending := None), [])
    case SendStopped => Shown(d.(sending := None), [])
    case FetchCancelled(_) => Shown(AbandonSave(d, luck), [])
    case FetchStopped => Shown(AbandonSave(d, luck), [])
    case Noticed(FileGone(fileId)) =>
      Shown(if d.saving.Some? && d.saving.value.fileId == fileId then AbandonSave(d, luck) else d, [])
    case _ => Shown(d, [])
  }

  function ShowAll(d: Driver, effects: seq<Effect>, luck: Luck): Shown
    decreases |effects|
  {
    if effects == [] then Shown(d, [])
    else if effects[0].Send? then ShowAll(d, effects[1..], luck)
    else
      var first := ShowEvent(d, effects[0].event, luck);
      var others := ShowAll(first.driver, effects[1..], luck);
      Shown(others.driver, first.answers + others.answers)
  }

  // ---- the circle ----

  function Round(d: Driver, input: Input, env: Env, luck: Luck): Shown {
    var did := Step(d.client, input, env);
    ShowAll(d.(client := did.client), did.effects, luck)
  }

  /** The queue is drained from the front, and for no more rounds than allowed. */
  function Feed(d: Driver, queue: seq<Input>, rounds: nat, env: Env, luck: Luck): Driver
    decreases rounds
  {
    if rounds == 0 || queue == [] then d
    else
      var shown := Round(d, queue[0], env, luck);
      Feed(shown.driver, queue[1..] + shown.answers, rounds - 1, env, luck)
  }

  // ---- commands ----

  function StartSave(d: Driver, c: Command, env: Env, luck: Luck): Driver
    requires c.SaveFile?
  {
    if d.saving.Some? || !luck.creates then d
    else
      var partial := PartialName(c.path);
      Feed(d.(saving := Some(Saving(c.fileId, c.path, partial)), disk := d.disk[partial := []]),
           [Fetch(c.fileId, c.chunkTotal, c.chunkBytes)], FEED_ROUNDS, env, luck)
  }

  function PathsOf(files: seq<OutgoingFile>): (paths: seq<Path>)
    ensures |paths| == |files|
  {
    seq(|files|, i requires 0 <= i < |files| => files[i].path)
  }

  predicate AllThere(files: seq<OutgoingFile>, disk: Disk) {
    forall i | 0 <= i < |files| :: files[i].path in disk && |disk[files[i].path]| < U64
  }

  function ItemsOf(files: seq<OutgoingFile>, disk: Disk): (items: seq<OutgoingItem>)
    requires AllThere(files, disk)
    ensures |items| == |files|
  {
    seq(|files|, i requires 0 <= i < |files| => OutgoingItem(files[i].name, |disk[files[i].path]|, files[i].preview))
  }

  /** Every file is opened before the first is offered. */
  function StartSend(d: Driver, c: Command, env: Env, luck: Luck): Driver
    requires c.SendFiles?
  {
    if d.sending.Some? || !luck.opens || !AllThere(c.files, d.disk) || c.files == [] then d
    else
      Feed(d.(sending := Some(Sending(PathsOf(c.files), 0))),
           [Input.Send(c.chat, ItemsOf(c.files, d.disk), c.text)], FEED_ROUNDS, env, luck)
  }

  function Obey(d: Driver, c: Command, env: Env, luck: Luck): Driver {
    match c
    case SaveFile(_, _, _, _) => StartSave(d, c, env, luck)
    case CancelSave => AbandonSave(Feed(d, [CancelFetch], FEED_ROUNDS, env, luck), luck)
    case SendFiles(_, _, _) => StartSend(d, c, env, luck)
    case CancelSending => Feed(d.(sending := None), [CancelSend], FEED_ROUNDS, env, luck)
    case Through(input) => Feed(d, [input], FEED_ROUNDS, env, luck)
  }
}
