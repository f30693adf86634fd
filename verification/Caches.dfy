/**
  The shared context, the writer, and the container and file caches.
 */
module Caches {
  import opened Types
  import opened Trace
  import opened Invariants

  /** The configuration and the clock.  Both clock readings are constant during one step
      of the collector; the seconds never go backwards from one step to the next. */
  class SysFlowContext {
    const cfg: Config
    var now: int      // seconds, getCurrentTime
    var nowNs: int    // nanoseconds, getSinspTime

    constructor (cfg: Config, now: int, nowNs: int)
      ensures this.cfg == cfg && this.now == now && this.nowNs == nowNs
    {
      this.cfg := cfg;
      this.now, this.nowNs := now, nowNs;
    }
  }

  /** The sink of the trace. */
  class Writer {
    const cxt: SysFlowContext
    var log: seq<Record>
    ghost var hushed: seq<DataFlow>    // flows kept out of the trace by the read mode
    var start: int

    constructor (cxt: SysFlowContext, start: int)
      ensures this.cxt == cxt && this.start == start && log == [] && hushed == []
    {
      this.cxt := cxt;
      this.start := start;
      log, hushed := [], [];
    }

    method Write(r: Record)
      modifies `log
      ensures log == old(log) + [r]
      ensures !r.HeaderRec? ==> Continues(old(log), log)
      ensures Declared(log) == (if r.HeaderRec? then {}
                                else if r.ProcessRec? then Declared(old(log)) + {Proc(r.oid)}
                                else if r.FileRec? then Declared(old(log)) + {Fil(r.foid)}
                                else Declared(old(log)))
      ensures Closed(log) <==> Closed(old(log)) && Needs(r) <= Declared(old(log))
      ensures Behaviors(log) == Behaviors(old(log)) + (if IsBehavior(r) then [r] else [])
      ensures Recorded(log) == Recorded(old(log)) + (if r.ProcessRec? then [r] else [])
    {
      Append(log, r);
      log := log + [r];
    }

    /** `writeNetFlow` and `writeFileFlow`: a flow without operations leaves no record. */
    method WriteFlow(f: FlowData)
      modifies `log
      ensures log == old(log) + Offered(f)
      ensures Continues(old(log), log) && Declared(log) == Declared(old(log))
      ensures Closed(old(log)) && Needs(FlowRec(f)) <= Declared(old(log)) ==> Closed(log)
      ensures Behaviors(log) == Behaviors(old(log)) + Offered(f)
      ensures Recorded(log) == Recorded(old(log))
    {
      if !Idle(f.opFlags) {
        Write(FlowRec(f));
      }
    }

    method WriteProcessFlow(o: OID, f: ProcFlow)
      modifies `log
      ensures log == old(log) + OfferedProc(o, f)
      ensures Continues(old(log), log) && Declared(log) == Declared(old(log))
      ensures Closed(old(log)) && Proc(o) in Declared(old(log)) ==> Closed(log)
      ensures Behaviors(log) == Behaviors(old(log)) + OfferedProc(o, f)
      ensures Recorded(log) == Recorded(old(log))
    {
      if !Idle(f.opFlags) {
        Write(ProcFlowRec(o, f.ts, f.endTs, f.opFlags, f.cnt));
      }
    }

    /** A rotation is due when the file has been open for the configured time. */
    predicate IsExpired(curTime: int)
      reads `start
    {
      start > 0 && curTime - start >= cxt.cfg.rotateInterval
    }

    /** A new file begins with a header: nothing is declared in it yet. */
    method Reset(curTime: int)
      modifies `log, `start
      ensures log == old(log) + [HeaderRec] && start == curTime
      ensures Declared(log) == {} && Behaviors(log) == Behaviors(old(log))
      ensures Closed(old(log)) ==> Closed(log)
    {
      start := curTime;
      Write(HeaderRec);
    }
  }

  const INCOMPLETE := "incomplete"
  const INCOMPLETE_IMAGE := "incomplete:incomplete"

  class ContainerContext {
    const writer: Writer
    var containers: ContainerTable

    constructor (writer: Writer)
      ensures this.writer == writer && containers == map[]
    {
      this.writer := writer;
      containers := map[];
    }

    /** `setContainer`, on a cached object or on a new one. */
    static function Described(c: ContainerObj, info: ContainerInfo): ContainerObj {
      c.(name := info.name, image := info.image + ":" + info.tag)
    }

    static function NewContainer(r: ContainerRef): ContainerObj {
      match r.info
      case None => ContainerObj(false, true, 0, INCOMPLETE, INCOMPLETE_IMAGE)
      case Some(info) =>
        var c := Described(ContainerObj(false, false, 0, "", ""), info);
        c.(incomplete := c.name == INCOMPLETE || c.image == INCOMPLETE_IMAGE)
    }

    /** A record is due for a container that is new, is not in this segment while its description
        is known, or was incomplete and is not any more. */
    static predicate RecordDue(cs: ContainerTable, r: ContainerRef) {
      && r.id != ""
      && (r.id in cs ==>
            && (!cs[r.id].written || cs[r.id].incomplete) && r.info.Some?
            && (cs[r.id].written ==> r.info.value.name != INCOMPLETE && r.info.value.image != INCOMPLETE))
    }

    /** Finds or creates the container of a thread, writing its record when one is due.  No
        reference count changes. */
    method GetContainer(r: ContainerRef) returns (found: bool)
      modifies `containers, writer`log
      ensures found <==> r.id != ""
      ensures found ==> r.id in containers
      ensures if RecordDue(old(containers), r)
              then var c := containers[r.id];
                   && c.written
                   && (match r.info
                       case Some(info) => c.name == info.name && c.image == info.image + ":" + info.tag
                       case None => c.name == "incomplete" && c.image == "incomplete:incomplete")
                   && c.incomplete == (if r.id in old(containers)
                                       then old(containers)[r.id].incomplete && !old(containers)[r.id].written
                                       else c.name == "incomplete" || c.image == "incomplete:incomplete")
                   && writer.log == old(writer.log) +
                      [ContainerRec(r.id, containers[r.id].name, containers[r.id].image)]
                   && (forall c :: c in old(containers) && c != r.id ==>
                         c in containers && containers[c] == old(containers)[c])
              else containers == old(containers) && writer.log == old(writer.log)
      ensures forall c :: RefsOf(containers, c) == RefsOf(old(containers), c)
      ensures old(containers).Keys <= containers.Keys <= old(containers).Keys + {r.id}
      ensures AddsEntities(old(writer.log), writer.log)
      ensures Recorded(writer.log) == Recorded(old(writer.log))
    {
      if r.id == "" {
        return false;
      }
      var ct: ContainerObj;
      if r.id in containers {
        ct := containers[r.id];
        if ct.written && !ct.incomplete {
          return true;
        }
        if r.info.None? {
          return true;
        }
        var info := r.info.value;
        if ct.written && ct.incomplete {
          if info.name == INCOMPLETE || info.image == INCOMPLETE {
            return true;
          }
          ct := ct.(incomplete := false);
        }
        ct := Described(ct, info);
      } else {
        ct := NewContainer(r);
      }
      writer.Write(ContainerRec(r.id, ct.name, ct.image));
      containers := containers[r.id := ct.(written := true)];
      found := true;
    }

    /** Writes the record of a cached container unless it is in this segment already. */
    method ExportContainer(id: string) returns (exported: bool)
      modifies `containers, writer`log
      ensures exported <==> id in old(containers) && !old(containers)[id].written
      ensures containers == if exported
                            then old(containers)[id := old(containers)[id].(written := true)]
                            else old(containers)
      ensures writer.log == old(writer.log)
                + if exported then [ContainerRec(id, old(containers)[id].name, old(containers)[id].image)] else []
      ensures forall c :: RefsOf(containers, c) == RefsOf(old(containers), c)
      ensures AddsEntities(old(writer.log), writer.log)
      ensures Recorded(writer.log) == Recorded(old(writer.log))
    {
      exported := false;
      if id in containers && !containers[id].written {
        writer.Write(ContainerRec(id, containers[id].name, containers[id].image));
        containers := containers[id := containers[id].(written := true)];
        exported := true;
      }
    }

    method Ref(id: string)
      requires id in containers
      modifies `containers
      ensures Recounted(old(containers), containers)
      ensures forall c :: RefsOf(containers, c) == RefsOf(old(containers), c) + One(Some(id), c)
    {
      containers := containers[id := containers[id].(refs := containers[id].refs + 1)];
    }

    /** The counts are unsigned: going below zero is what the caller must exclude. */
    method Deref(id: string)
      requires id in containers ==> containers[id].refs > 0
      modifies `containers
      ensures Recounted(old(containers), containers)
      ensures forall c :: RefsOf(containers, c) + (if id in old(containers) then One(Some(id), c) else 0)
                          == RefsOf(old(containers), c)
    {
      if id in containers {
        containers := containers[id := containers[id].(refs := containers[id].refs - 1)];
      }
    }

    /** Rotation: exactly the containers nobody refers to are dropped; the others must be
        written again. */
    method ClearContainers()
      modifies `containers
      ensures containers == map c | c in old(containers) && old(containers)[c].refs > 0
                                  :: old(containers)[c].(written := false)
      ensures forall c :: RefsOf(containers, c) == RefsOf(old(containers), c)
    {
      var todo := containers.Keys;
      while todo != {}
        invariant todo <= old(containers).Keys
        invariant forall c :: c in todo ==> c in containers && containers[c] == old(containers)[c]
        invariant forall c :: c in containers && c !in todo ==>
          c in old(containers) && old(containers)[c].refs > 0
          && containers[c] == old(containers)[c].(written := false)
        invariant forall c :: c in old(containers) && old(containers)[c].refs > 0 ==> c in containers
        decreases |todo|
      {
        var c :| c in todo;
        todo := todo - {c};
        if containers[c].refs == 0 {
          containers := containers - {c};
        } else {
          containers := containers[c := containers[c].(written := false)];
        }
      }
    }
  }

  class FileContext {
    const containerCxt: ContainerContext
    const writer: Writer := containerCxt.writer
    var files: FileTable

    constructor (containerCxt: ContainerContext)
      ensures this.containerCxt == containerCxt && files == map[]
    {
      this.containerCxt := containerCxt;
      files := map[];
    }

    ghost predicate Valid()
      reads this, writer
    {
      FilesWritten(files, writer.log)
    }

    /** Finds or creates the file of an event; afterwards it is cached, marked written and
        declared in this segment.  Its count is kept (a new file starts at zero). */
    method GetFile(ev: Event, path: string, state: ObjectState) returns (key: string, created: bool)
      requires Valid()
      modifies `files, containerCxt`containers, writer`log
      ensures Valid()
      ensures key == ev.container.id + path && created == (key !in old(files))
      ensures files.Keys == old(files).Keys + {key} && files[key].written
      ensures files == Fetched(old(files), key, state, ev.task.container.id)
      ensures if !created && old(files)[key].written then writer.log == old(writer.log)
              else EndsWith(writer.log, FileRec(Sha1(key), files[key].state))
      ensures Fil(Sha1(key)) in Declared(writer.log)
      ensures forall c :: RefsOf(containerCxt.containers, c) == RefsOf(old(containerCxt.containers), c)
      ensures AddsEntities(old(writer.log), writer.log)
      ensures Recorded(writer.log) == Recorded(old(writer.log))
    {
      hide Declared, Closed, Behaviors, Recorded, Segments, FilesWritten;
      key := ev.container.id + path;
      created := key !in files;
      ghost var before, log := files, writer.log;
      var f: FileObj;
      if key in files {
        if files[key].written {
          WrittenFile(files, writer.log, key);
          return;
        }
        f := files[key].(state := Reup);
      } else {
        var found := containerCxt.GetContainer(ev.task.container);
        f := FileObj(false, 0, state, if found then Some(ev.task.container.id) else None);
      }
      writer.Write(FileRec(Sha1(key), f.state));
      files := files[key := f.(written := true)];
      FetchedWritten(before, log, writer.log, key, state, ev.task.container.id);
    }

    /** `getFile(key)` and `exportFile`: re-declares a cached file in this segment. */
    method ExportFile(key: string) returns (found: bool)
      requires Valid()
      modifies `files, writer`log
      ensures Valid()
      ensures found <==> key in old(files)
      ensures found ==> Fil(Sha1(key)) in Declared(writer.log)
      ensures files == if found then Fetched(old(files), key, Reup, "") else old(files)
      ensures writer.log == old(writer.log)
                + if found && !old(files)[key].written then [FileRec(Sha1(key), Reup)] else []
      ensures AddsEntities(old(writer.log), writer.log)
      ensures Recorded(writer.log) == Recorded(old(writer.log))
    {
      found := key in files;
      if found && !files[key].written {
        files := files[key := files[key].(state := Reup, written := true)];
        writer.Write(FileRec(Sha1(key), Reup));
      }
    }

    /** Rotation: exactly the files with no counted reference are dropped. */
    method ClearFiles()
      modifies `files
      ensures files == map k | k in old(files) && old(files)[k].refs > 0
                             :: old(files)[k].(written := false)
      ensures Valid()
    {
      var todo := files.Keys;
      while todo != {}
        invariant todo <= old(files).Keys
        invariant forall k :: k in todo ==> k in files && files[k] == old(files)[k]
        invariant forall k :: k in files && k !in todo ==>
          k in old(files) && old(files)[k].refs > 0 && files[k] == old(files)[k].(written := false)
        invariant forall k :: k in old(files) && old(files)[k].refs > 0 ==> k in files
        decreases |todo|
      {
        var k :| k in todo;
        todo := todo - {k};
        if files[k].refs == 0 {
          files := files - {k};
        } else {
          files := files[k := files[k].(written := false)];
        }
      }
    }
  }
}
