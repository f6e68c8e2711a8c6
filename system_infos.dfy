/**
 * The API's system-information helpers: the process listing and the lookup of
 * one operating-system user.  The process table and the password database are
 * outside the model; their answers are parameters.  The uptime helper of the
 * same file is `Uptime.GetSystemUptime`.
 */
module SystemInfos {
  import opened Common

  /** A value psutil reports for a process attribute. */
  datatype Field = Number(n: int) | Text(s: string)

  /** One process as psutil reports it: attribute name to value. */
  type ProcessInfo = map<string, Field>

  /** One entry of the listing; a missing attribute becomes `None`. */
  type ProcessEntry = map<string, Option<Field>>

  const ListedKeys: set<string> := {"pid", "name", "status"}

  /** Python's `dict.get`: the value, or `None` when the key is absent. */
  function Get(info: ProcessInfo, key: string): (r: Option<Field>)
    ensures r.Some? <==> key in info
    ensures r.Some? ==> r.value == info[key]
  {
    if key in info then Some(info[key]) else None
  }

  /**
   * `list_processes`: one entry per process, in the order the processes are
   * visited, each with exactly the keys pid, name and status.
   */
  method ListProcesses(processes: seq<ProcessInfo>) returns (listed: seq<ProcessEntry>)
    ensures |listed| == |processes|
    ensures forall i :: 0 <= i < |listed| ==> listed[i].Keys == ListedKeys
    ensures forall i, k :: 0 <= i < |listed| && k in listed[i] ==> listed[i][k] == Get(processes[i], k)
  {
    listed := [];
    var i := 0;
    while i < |processes|
      invariant i <= |processes| && |listed| == i
      invariant forall j :: 0 <= j < i ==> listed[j].Keys == ListedKeys
      invariant forall j, k :: 0 <= j < i && k in listed[j] ==> listed[j][k] == Get(processes[j], k)
    {
      var info := processes[i];
      var entry := map["pid" := Get(info, "pid"), "name" := Get(info, "name"), "status" := Get(info, "status")];
      listed := listed + [entry];
      i := i + 1;
    }
  }

  /** An entry of the password database. */
  datatype PasswordEntry = PasswordEntry(name: string, uid: int, gid: int, dir: string, shell: string)

  /** How `pwd.getpwnam` answers: an entry, `KeyError`, or any other exception. */
  datatype PasswordLookup = Found(entry: PasswordEntry) | NoSuchUser | LookupFailed

  /** The per-user dictionary of the answer. */
  datatype UserInfo = UserInfo(userName: string, uid: int, gid: int, homeDir: string, shell: string)

  /** The pair returned: a tri-state flag and a dictionary keyed by user name. */
  datatype UserInfoAnswer = UserInfoAnswer(found: Option<bool>, infos: map<string, UserInfo>)

  /**
   * `get_system_user_infos`: (True, {username: info}) when the user exists,
   * (None, {}) for an unknown user and (False, {}) on any other error.
   */
  function GetSystemUserInfos(username: string, lookup: PasswordLookup): (r: UserInfoAnswer)
    ensures r.found == Some(true) <==> lookup.Found?
    ensures r.found == None <==> lookup.NoSuchUser?
    ensures r.found == Some(false) <==> lookup.LookupFailed?
    ensures !lookup.Found? ==> r.infos == map[]
    ensures lookup.Found? ==>
      && r.infos.Keys == {username}
      && var e := lookup.entry;
         r.infos[username] == UserInfo(e.name, e.uid, e.gid, e.dir, e.shell)
  {
    match lookup
    case Found(e) => UserInfoAnswer(Some(true), map[username := UserInfo(e.name, e.uid, e.gid, e.dir, e.shell)])
    case NoSuchUser => UserInfoAnswer(None, map[])
    case LookupFailed => UserInfoAnswer(Some(false), map[])
  }
}
