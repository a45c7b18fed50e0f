/** The outside world the layer talks to: the file system holding the
    cache, and the HTTP transport, here a fixed script of answers that
    also logs every request it receives. */
module Env {
  import opened Types
  import CacheStore

  class Host {
    var files: map<string, string>
    var readFails: bool
    var writeFails: bool
    /** The transport's answers, one per call, in call order. */
    const script: seq<Outcome>
    /** Every request the transport has received, in order. */
    var sent: seq<Request>

    constructor (files: map<string, string>, readFails: bool, writeFails: bool, script: seq<Outcome>)
      ensures State() == CacheStore.Disk(files, readFails, writeFails)
      ensures this.script == script && sent == []
    {
      this.files := files;
      this.readFails := readFails;
      this.writeFails := writeFails;
      this.script := script;
      this.sent := [];
    }

    /** The file system as a value. */
    function State(): CacheStore.Disk
      reads this
    {
      CacheStore.Disk(files, readFails, writeFails)
    }

    /** `os.Stat` succeeds. */
    method Stat(name: string) returns (found: bool)
      ensures found == CacheStore.FileExist(State(), name)
    {
      found := name != "" && name in files;
    }

    /** `os.ReadFile`. */
    method ReadFile(name: string) returns (r: Result)
      ensures r == CacheStore.ReadFile(State(), name)
    {
      if name != "" && name in files && !readFails {
        r := Ok(files[name]);
      } else {
        r := Err(ReadError);
      }
    }

    /** `os.WriteFile`. */
    method WriteFile(name: string, data: string) returns (err: Option<Error>)
      modifies this
      ensures var u := CacheStore.WriteFile(old(State()), name, data);
        State() == u.disk && err == u.err
      ensures sent == old(sent)
    {
      if name == "" || writeFails {
        err := Some(WriteError);
      } else {
        files := files[name := data];
        err := None;
      }
    }

    /** `os.Remove`. */
    method Remove(name: string) returns (err: Option<Error>)
      modifies this
      ensures var u := CacheStore.Remove(old(State()), name);
        State() == u.disk && err == u.err
      ensures sent == old(sent)
    {
      if name == "" || name !in files || writeFails {
        err := Some(RemoveError);
      } else {
        files := files - {name};
        err := None;
      }
    }

    /** `req.Do`: one transport call, answered by the next scripted outcome. */
    method Do(request: Request) returns (o: Outcome)
      modifies this
      ensures o == Answer(script, old(|sent|))
      ensures sent == old(sent) + [request] && State() == old(State())
    {
      o := Answer(script, |sent|);
      sent := sent + [request];
    }
  }
}
