/** The driver as an object: the files it saves and sends change in place, and its queue is drained by a loop. */
module CompanionFiles {
  import opened Bytes
  import opened CompanionProtocol
  import opened CompanionTerminal
  import D = CompanionDriver

  /** One read may give less than was asked for; nothing at all it gives only at the end of the file. */
  method ReadFull(content: seq<Byte>, offset: nat, buffer: array<Byte>) returns (filled: nat)
    modifies buffer
    ensures filled <= buffer.Length && buffer[..filled] == D.ReadAt(content, offset, buffer.Length)
  {
    filled := 0;
    while filled < buffer.Length
      invariant filled <= buffer.Length && (filled > 0 ==> offset + filled <= |content|)
      invariant forall i | 0 <= i < filled :: buffer[i] == content[offset + i]
    {
      if offset + filled >= |content| { break; }
      assert 0 < 1 && filled + 1 <= buffer.Length && offset + filled + 1 <= |content|;
      var got: nat :| 0 < got && filled + got <= buffer.Length && offset + filled + got <= |content|;
      forall i | 0 <= i < got { buffer[filled + i] := content[offset + filled + i]; }
      filled := filled + got;
    }
  }

  class FileDriver {
    const client: CompanionClient
    var saving: Option<D.Saving>
    var sending: Option<D.Sending>
    var disk: D.Disk

    function State(): D.Driver
      reads this, client
    {
      D.Driver(client.State(), saving, sending, disk)
    }

    constructor (client: CompanionClient, disk: D.Disk)
      ensures State() == D.Driver(client.State(), None, None, disk) && this.client == client
    {
      this.client, this.disk := client, disk;
      saving, sending := None, None;
    }

    method AbandonSave(luck: D.Luck)
      modifies this
      ensures State() == D.AbandonSave(old(State()), luck)
    {
      if saving.None? { return; }
      var s := saving.value;
      saving := None;
      if luck.removes { disk := disk - {s.partial}; }
    }

    method OnFileBytes(offset: nat, bytes: seq<Byte>, luck: D.Luck) returns (answers: seq<Input>)
      modifies this
      ensures D.Shown(State(), answers) == D.OnFileBytes(old(State()), offset, bytes, luck)
    {
      if saving.None? { return []; }
      var partial := saving.value.partial;
      var content := if partial in disk then disk[partial] else [];
      if luck.writes {
        disk := disk[partial := D.WriteAt(content, offset, bytes)];
        return [];
      }
      disk := disk[partial := luck.spoiled];
      AbandonSave(luck);
      return [CancelFetch];
    }

    method OnFileDone(luck: D.Luck)
      modifies this
      ensures State() == D.OnFileDone(old(State()), luck).driver
    {
      if saving.None? { return; }
      var s := saving.value;
      saving := None;
      if luck.renames && s.partial in disk {
        var content := disk[s.partial];
        disk := disk[s.path := content];
        if s.partial != s.path { disk := disk - {s.partial}; }
      } else if luck.removes {
        disk := disk - {s.partial};
      }
    }

    method OnNeedChunk(which: nat, index: nat, offset: nat, len: nat, luck: D.Luck) returns (answers: seq<Input>)
      modifies this
      ensures D.Shown(State(), answers) == D.OnNeedChunk(old(State()), which, index, offset, len, luck)
    {
      if sending.None? { return []; }
      var s := sending.value;
      if which != s.at && which >= |s.paths| { return []; }
      if which >= |s.paths| || s.paths[which] !in disk || !luck.readable || (which != s.at && !luck.opens) {
        sending := None;
        return [CancelSend];
      }
      sending := Some(s.(at := which));
      var buffer := new Byte[len];
      var filled := ReadFull(disk[s.paths[which]], offset, buffer);
      return [PutChunk(index, buffer[..filled])];
    }

    /** The end of a save that will not be finished. */
    method TellOfEnd(event: Event, luck: D.Luck)
      requires event.FetchCancelled? || event.FetchStopped? || (event.Noticed? && event.notice.FileGone?)
      modifies this
      ensures D.Shown(State(), []) == D.ShowEvent(old(State()), event, luck)
    {
      hide D.AbandonSave;
      if event.Noticed? {
        if saving.Some? && saving.value.fileId == event.notice.fileId { AbandonSave(luck); }
      } else {
        AbandonSave(luck);
      }
    }

    method Tell(event: Event, luck: D.Luck) returns (answers: seq<Input>)
      modifies this
      ensures D.Shown(State(), answers) == D.ShowEvent(old(State()), event, luck)
    {
      hide D.OnFileBytes, D.OnNeedChunk, D.OnFileDone, D.AbandonSave, D.WriteAt, D.ReadAt;
      answers := [];
      if event.FileBytes? {
        answers := OnFileBytes(event.offset, event.bytes, luck);
      } else if event.FileDone? {
        DoneAsksNothing(State(), luck);
        OnFileDone(luck);
      } else if event.NeedChunk? {
        answers := OnNeedChunk(event.which, event.index, event.offset, event.len, luck);
      } else if event.Sent? || event.SendStopped? {
        sending := None;
      } else if event.FetchCancelled? || event.FetchStopped? || (event.Noticed? && event.notice.FileGone?) {
        TellOfEnd(event, luck);
      }
    }

    static lemma {:induction false} DoneAsksNothing(d: D.Driver, luck: D.Luck)
      ensures D.OnFileDone(d, luck).answers == []
    {
    }

    /** Every effect in turn: what is shown may call for an answer. */
    method TellAll(effects: seq<Effect>, luck: D.Luck) returns (answers: seq<Input>)
      modifies this
      ensures D.Shown(State(), answers) == D.ShowAll(old(State()), effects, luck)
    {
      answers := [];
      var i := 0;
      while i < |effects|
        invariant i <= |effects|
        invariant var others := D.ShowAll(State(), effects[i..], luck);
                  D.ShowAll(old(State()), effects, luck) == D.Shown(others.driver, answers + others.answers)
      {
        assert effects[i..][0] == effects[i] && effects[i..][1..] == effects[i + 1..];
        if effects[i].Show? {
          var more := Tell(effects[i].event, luck);
          assert forall rest: seq<Input> :: answers + (more + rest) == answers + more + rest;
          answers := answers + more;
        }
        i := i + 1;
      }
      assert answers + [] == answers;
    }

    /** One input and everything it leads to, in at most eight rounds. */
    method Feed(input: Input, env: Env, luck: D.Luck)
      modifies this, client
      ensures State() == D.Feed(old(State()), [input], D.FEED_ROUNDS, env, luck)
    {
      hide Step, D.ShowAll;
      var queue := [input];
      for round := 0 to D.FEED_ROUNDS
        invariant D.Feed(old(State()), [input], D.FEED_ROUNDS, env, luck) ==
                  D.Feed(State(), queue, D.FEED_ROUNDS - round, env, luck)
      {
        if queue == [] { break; }
        var first := queue[0];
        queue := queue[1..];
        var effects := client.Take(first, env);
        var answers := TellAll(effects, luck);
        queue := queue + answers;
      }
    }

    method StartSave(fileId: Id, chunkTotal: nat, chunkBytes: u64, path: D.Path, env: Env, luck: D.Luck)
      modifies this, client
      ensures State() == D.StartSave(old(State()), D.SaveFile(fileId, chunkTotal, chunkBytes, path), env, luck)
    {
      hide D.Feed;
      if saving.Some? { return; }
      if !luck.creates { return; }
      var partial := D.PartialName(path);
      disk := disk[partial := []];
      saving := Some(D.Saving(fileId, path, partial));
      Feed(Fetch(fileId, chunkTotal, chunkBytes), env, luck);
    }

    /** Every file is opened before the first is offered. */
    method StartSend(chat: Id, files: seq<D.OutgoingFile>, text: Text, env: Env, luck: D.Luck)
      modifies this, client
      ensures State() == D.StartSend(old(State()), D.SendFiles(chat, files, text), env, luck)
    {
      hide D.Feed;
      if sending.Some? { return; }
      var paths: seq<D.Path>, items: seq<OutgoingItem> := [], [];
      var i := 0;
      while i < |files|
        invariant i <= |files| && D.AllThere(files[..i], disk) && State() == old(State()) && (i > 0 ==> luck.opens)
        invariant paths == D.PathsOf(files[..i]) && items == D.ItemsOf(files[..i], disk)
      {
        var file := files[i];
        if !luck.opens || file.path !in disk || |disk[file.path]| >= U64 {
          assert !luck.opens || !D.AllThere(files, disk);
          return;
        }
        paths := paths + [file.path];
        items := items + [OutgoingItem(file.name, |disk[file.path]|, file.preview)];
        i := i + 1;
      }
      assert files[..|files|] == files;
      if files == [] { return; }
      sending := Some(D.Sending(paths, 0));
      Feed(Input.Send(chat, items, text), env, luck);
    }

    method CancelSave(env: Env, luck: D.Luck)
      modifies this, client
      ensures State() == D.Obey(old(State()), D.CancelSave, env, luck)
    {
      hide D.Feed;
      Feed(CancelFetch, env, luck);
      AbandonSave(luck);
    }
  }
}
