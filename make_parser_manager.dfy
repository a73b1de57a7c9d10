/**
 * MakeParserManager: the object that reconstructs make's nesting of directories from
 * its output, one line at a time. Each method updates the fields as the Java methods
 * do, and its postcondition ties the new state to the transition of the same name in
 * MakeParserSpec, where the properties of that transition are proved.
 */
module MakeParser {
  import opened Wrappers
  import opened Events
  import opened Paths
  import opened MakeParserSpec

  class MakeParserManager {
    var targets: seq<Target>
    var pending: seq<string>
    var workingDirectory: string
    var mainTasks: Option<seq<string>>
    var cursor: Option<TaskCursor>
    var log: seq<Event>
    const paths: PathOps
    const markers: Recognizers

    ghost function Model(): State
      reads this
    {
      State(targets, pending, workingDirectory, mainTasks, cursor, log)
    }

    /** The logger has seen a start for every open target and a finish for every closed one. */
    ghost predicate Valid()
      reads this
    {
      Bracketed(Model())
    }

    constructor (paths: PathOps, markers: Recognizers, workingDirectory: string,
                 mainTasks: Option<seq<string>>)
      ensures Valid()
      ensures Model() == State([], [], workingDirectory, mainTasks, None, [])
    {
      this.paths := paths;
      this.markers := markers;
      this.workingDirectory := workingDirectory;
      this.mainTasks := mainTasks;
      targets := [];
      pending := [];
      cursor := None;
      log := [];
      assert Descriptions([]) == [];
    }

    method SetWorkingDirectory(workingDirectory: string)
      modifies this`workingDirectory
      ensures Model() == old(Model()).(workingDirectory := workingDirectory)
    {
      this.workingDirectory := workingDirectory;
    }

    /** The caller publishing (or replacing) the shared main task list. */
    method SetMainTasks(tasks: Option<seq<string>>)
      requires Valid()
      modifies this`mainTasks
      ensures Valid()
      ensures Model() == old(Model()).(mainTasks := tasks)
    {
      mainTasks := tasks;
    }

    method InitMainTasksIterator() returns (ready: bool)
      modifies this`cursor
      ensures cursor == InitCursor(old(cursor), mainTasks)
      ensures ready <==> cursor.Some?
    {
      if cursor.Some? {
        return true;
      }
      if mainTasks.None? {
        return false;
      }
      cursor := Some(TaskCursor([], mainTasks.value));
      return true;
    }

    method GetNextMainTarget() returns (name: Option<string>)
      modifies this`cursor
      ensures (name, cursor) == NextMainTarget(old(cursor), mainTasks)
    {
      var ready := InitMainTasksIterator();
      if ready && cursor.value.remaining != [] {
        var c := cursor.value;
        name := Some(c.remaining[0]);
        cursor := Some(TaskCursor(c.consumed + [c.remaining[0]], c.remaining[1..]));
      } else {
        name := None;
      }
    }

    /** Logs the queued lines in the order they arrived and empties the queue. */
    method DrainPending()
      requires Valid()
      modifies this`log, this`pending
      ensures Valid()
      ensures Model() == Drain(old(Model()))
    {
      DrainKeepsBracketed(Model());
      var i := 0;
      while i < |pending|
        invariant 0 <= i <= |pending|
        invariant pending == old(pending)
        invariant log == old(log) + Messages(pending[..i])
      {
        assert pending[..i + 1][..i] == pending[..i];
        log := log + [Message(pending[i])];
        i := i + 1;
      }
      assert pending[..i] == pending;
      pending := [];
    }

    method DirectoryStart(directory: string, level: int)
      requires Valid()
      modifies this
      ensures Valid()
      ensures Model() == MakeParserSpec.DirectoryStart(paths, old(Model()), directory, level)
    {
      ghost var s0 := Model();
      DirectoryStartKeepsBracketed(paths, s0, directory, level);
      var dir := paths.unix(directory);
      var targetLevel := level;
      if targets == [] {
        var targetName := GetNextMainTarget();
        var description := MainTaskLabel(targetName);
        targets := targets + [Target(workingDirectory, Some(description), 0)];
        log := log + [BlockStart(Some(description))];
        assert Model() == StartMainTask(s0);
        PushKeepsBracketed(s0.(cursor := NextMainTarget(s0.cursor, s0.mainTasks).1), MainTarget(s0));
        if IsWorkingDirectory(paths, workingDirectory, dir) {
          DrainPending();
          return;
        }
      }
      ghost var s1 := Model();
      assert s1 == WithMainTask(s0);
      var relativePath := RelativePath(paths, PrevTargetDirectory(targets, workingDirectory), dir);
      if !IsWorkingDirectory(paths, workingDirectory, dir) && relativePath != Some("") {
        if targetLevel == -1 {
          targetLevel := PrevTargetLevel(targets) + 1;
        }
        var description := if pending == [] then relativePath else Some(pending[0]);
        targets := targets + [Target(dir, description, targetLevel)];
        log := log + [BlockStart(description)];
        assert Model() == Push(s1, EnteredTarget(paths, s1, dir, level));
        PushKeepsBracketed(s1, EnteredTarget(paths, s1, dir, level));
        DrainPending();
      } else if IsWorkingDirectory(paths, workingDirectory, dir) {
        DrainPending();
      }
    }

    method CheckMainTaskFinished(dirName: string, level: int)
      requires Valid()
      modifies this`targets, this`log
      ensures Valid()
      ensures Model() == MakeParserSpec.CheckMainTaskFinished(paths, old(Model()), dirName, level)
    {
      if level <= 1 && IsWorkingDirectory(paths, workingDirectory, dirName)
         && IsLastTargetDirectory(paths, targets, workingDirectory)
      {
        PopKeepsBracketed(Model());
        var t := targets[|targets| - 1];
        targets := targets[..|targets| - 1];
        log := log + [BlockFinish(t.description)];
      }
    }

    method DirectoryFinish(directory: string, level: int)
      requires Valid()
      modifies this`targets, this`log
      ensures Valid()
      ensures Model() == MakeParserSpec.DirectoryFinish(paths, old(Model()), directory, level)
    {
      DirectoryFinishKeepsBracketed(paths, Model(), directory, level);
      var dir := paths.unix(directory);
      if !IsLastTargetDirectory(paths, targets, dir) {
        return;
      }
      if IsLastTargetLevel(targets, level) {
        var t := targets[|targets| - 1];
        targets := targets[..|targets| - 1];
        log := log + [BlockFinish(t.description)];
      } else {
        CheckMainTaskFinished(dir, level);
      }
    }

    /** Closes every open target, innermost first. */
    method FinishAllTargets()
      requires Valid()
      modifies this`targets, this`log
      ensures Valid()
      ensures Model() == MakeParserSpec.FinishAllTargets(old(Model()))
    {
      FinishAllTargetsClosesEverything(Model());
      while targets != []
        invariant log + ClosingEvents(targets) == old(log) + ClosingEvents(old(targets))
        decreases |targets|
      {
        var t := targets[|targets| - 1];
        assert ClosingEvents(targets) == [BlockFinish(t.description)] + ClosingEvents(targets[..|targets| - 1]);
        targets := targets[..|targets| - 1];
        log := log + [BlockFinish(t.description)];
      }
      assert log == old(log) + ClosingEvents(old(targets));
    }

    /** Offers one line of build output; true when the line was consumed. */
    method SpecialParse(text: string) returns (handled: bool)
      requires Valid()
      modifies this
      ensures Valid()
      ensures (handled, Model()) == MakeParserSpec.SpecialParse(paths, markers, old(Model()), text)
    {
      SpecialParseKeepsBracketed(paths, markers, Model(), text);
      if markers.makingIn(text) {
        pending := pending + [text];
        return true;
      }
      var enter := markers.enter(text);
      if enter.Some? {
        var dirName := enter.value.directory;
        var level := 0;
        if enter.value.level.Some? {
          level := enter.value.level.value;
        }
        DirectoryStart(dirName, level);
        log := log + [Message(text)];
        return true;
      }
      var leave := markers.leave(text);
      if leave.Some? {
        log := log + [Message(text)];
        var dirName := leave.value.directory;
        var level := 0;
        if leave.value.level.Some? {
          level := leave.value.level.value;
        }
        DirectoryFinish(dirName, level);
        return true;
      }
      handled := markers.inherited(text);
    }
  }
}
