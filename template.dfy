/**
 * backend_code/src/template.rs: the code template the backend agent hands to
 * the LLM, a small actix-web server over an in-memory database of tasks and
 * users. Modelled here: the database and its operations, the login decision
 * and the CORS origin predicate.
 */
module Template {
  import opened Outcomes

  /** Rust's `u64`. */
  type U64 = x: int | 0 <= x < 0x1_0000_0000_0000_0000

  datatype Task = Task(id: U64, name: string, completed: bool)

  datatype User = User(id: U64, username: string, password: string)

  /** Two id-keyed maps, changed in place by the request handlers. */
  class Database {
    var tasks: map<U64, Task>
    var users: map<U64, User>

    /** `new`: no tasks and no users. */
    constructor ()
      ensures tasks == map[] && users == map[]
    {
      tasks := map[];
      users := map[];
    }

    // Tasks

    /** `get_task`: the task stored under id, if any. */
    function GetTask(id: U64): (r: Option<Task>)
      reads this
      ensures r.Some? <==> id in tasks
      ensures r.Some? ==> r.value == tasks[id]
    {
      if id in tasks then Some(tasks[id]) else None
    }

    /**
     * `get_all_tasks`: the stored tasks, one entry per key, in the map's
     * iteration order (which Rust leaves unspecified; `keys` is that order).
     */
    method GetAllTasks() returns (r: seq<Task>, ghost keys: seq<U64>)
      ensures |r| == |keys| == |tasks|
      ensures forall i, j :: 0 <= i < j < |keys| ==> keys[i] != keys[j]
      ensures forall id :: id in tasks <==> id in keys
      ensures forall i :: 0 <= i < |keys| ==> keys[i] in tasks && r[i] == tasks[keys[i]]
    {
      r, keys := [], [];
      var left := tasks.Keys;
      while left != {}
        invariant left <= tasks.Keys
        invariant |r| == |keys| && |keys| + |left| == |tasks|
        invariant forall i, j :: 0 <= i < j < |keys| ==> keys[i] != keys[j]
        invariant forall id :: id in tasks ==> (id in keys <==> id !in left)
        invariant forall i :: 0 <= i < |keys| ==> keys[i] in tasks && r[i] == tasks[keys[i]]
        decreases left
      {
        var id :| id in left;
        r, keys := r + [tasks[id]], keys + [id];
        left := left - {id};
      }
    }

    /** `insert_task`: store the task under its id, replacing any task there. */
    method InsertTask(task: Task)
      modifies this
      ensures tasks == old(tasks)[task.id := task] && users == old(users)
    {
      tasks := tasks[task.id := task];
    }

    /** `remove_task`: forget the task stored under id; nothing happens when there is none. */
    method RemoveTask(id: U64)
      modifies this
      ensures tasks == old(tasks) - {id} && users == old(users)
      ensures id !in old(tasks) ==> tasks == old(tasks)
    {
      tasks := tasks - {id};
    }

    /** `update_task`: the same upsert as `insert_task`. */
    method UpdateTask(task: Task)
      modifies this
      ensures tasks == old(tasks)[task.id := task] && users == old(users)
    {
      tasks := tasks[task.id := task];
    }

    // Users

    /** `get_user`: the user stored under id, if any. */
    function GetUser(id: U64): (r: Option<User>)
      reads this
      ensures r.Some? <==> id in users
      ensures r.Some? ==> r.value == users[id]
    {
      if id in users then Some(users[id]) else None
    }

    /** `get_all_users`: the stored users, one entry per key, in the map's iteration order. */
    method GetAllUsers() returns (r: seq<User>, ghost keys: seq<U64>)
      ensures |r| == |keys| == |users|
      ensures forall i, j :: 0 <= i < j < |keys| ==> keys[i] != keys[j]
      ensures forall id :: id in users <==> id in keys
      ensures forall i :: 0 <= i < |keys| ==> keys[i] in users && r[i] == users[keys[i]]
    {
      r, keys := [], [];
      var left := users.Keys;
      while left != {}
        invariant left <= users.Keys
        invariant |r| == |keys| && |keys| + |left| == |users|
        invariant forall i, j :: 0 <= i < j < |keys| ==> keys[i] != keys[j]
        invariant forall id :: id in users ==> (id in keys <==> id !in left)
        invariant forall i :: 0 <= i < |keys| ==> keys[i] in users && r[i] == users[keys[i]]
        decreases left
      {
        var id :| id in left;
        r, keys := r + [users[id]], keys + [id];
        left := left - {id};
      }
    }

    /**
     * `get_user_by_name`: the first user met in the map's iteration order
     * whose username is the given one; None exactly when no user has it.
     */
    method GetUserByName(username: string) returns (r: Option<User>)
      ensures r.Some? ==> r.value.username == username && exists id :: id in users && users[id] == r.value
      ensures r.None? <==> forall id :: id in users ==> users[id].username != username
    {
      var left := users.Keys;
      while left != {}
        invariant left <= users.Keys
        invariant forall id :: id in users && id !in left ==> users[id].username != username
        decreases left
      {
        var id :| id in left;
        if users[id].username == username {
          return Some(users[id]);
        }
        left := left - {id};
      }
      return None;
    }

    /** `insert_user`: store the user under its id, replacing any user there. */
    method InsertUser(user: User)
      modifies this
      ensures users == old(users)[user.id := user] && tasks == old(tasks)
    {
      users := users[user.id := user];
    }

    /** `remove_user`: forget the user stored under id; nothing happens when there is none. */
    method RemoveUser(id: U64)
      modifies this
      ensures users == old(users) - {id} && tasks == old(tasks)
      ensures id !in old(users) ==> users == old(users)
    {
      users := users - {id};
    }

    /** `update_user`: the same upsert as `insert_user`. */
    method UpdateUser(user: User)
      modifies this
      ensures users == old(users)[user.id := user] && tasks == old(tasks)
    {
      users := users[user.id := user];
    }
  }

  // -----------------------------------------------------------------------
  // Login

  /** The two answers of the login handler: 200 "Logged in!" or 400 "Invalid username or password". */
  datatype LoginResponse = LoggedIn | BadRequest

  /** The login decision on the user found by name: a match of the supplied password. */
  function LoginDecision(found: Option<User>, password: string): (r: LoginResponse)
    ensures r == LoggedIn <==> found.Some? && found.value.password == password
  {
    match found
    case Some(stored) => if stored.password == password then LoggedIn else BadRequest
    case None => BadRequest
  }

  /** No two stored users share a username. */
  predicate UniqueUsernames(users: map<U64, User>) {
    forall a, b :: a in users && b in users && users[a].username == users[b].username ==> a == b
  }

  /**
   * The login handler on a locked database: logged in only with the password
   * of a stored user of that name; when usernames are unique, exactly then.
   */
  method Login(db: Database, user: User) returns (response: LoginResponse)
    ensures response == LoggedIn ==>
      exists id :: id in db.users && db.users[id].username == user.username && db.users[id].password == user.password
    ensures UniqueUsernames(db.users) ==>
      (response == LoggedIn <==>
        exists id :: id in db.users && db.users[id].username == user.username && db.users[id].password == user.password)
  {
    var found := db.GetUserByName(user.username);
    response := LoginDecision(found, user.password);
  }

  // -----------------------------------------------------------------------
  // CORS

  const LocalOriginPrefix := "http://localhost"

  /** The origin predicate as written: the origin starts with the local prefix, or is "null". */
  predicate AllowedOrigin(origin: string) {
    LocalOriginPrefix <= origin || origin == "null"
  }

  /** The host of an `http://` origin: what follows the scheme, up to a port separator. */
  function Host(origin: string): (h: string)
    requires "http://" <= origin
    ensures h <= origin[7..] && ':' !in h
  {
    HostPart(origin[7..])
  }

  function HostPart(rest: string): (h: string)
    ensures h <= rest && ':' !in h
    ensures h == rest || rest[|h|] == ':'
  {
    if rest == [] || rest[0] == ':' then [] else [rest[0]] + HostPart(rest[1..])
  }

  predicate IsDigits(s: string) {
    forall i :: 0 <= i < |s| ==> '0' <= s[i] <= '9'
  }

  /** The predicate as evidently intended: "null", or the local host itself, with or without a port. */
  predicate AllowedOriginCorrected(origin: string) {
    origin == "null" || origin == LocalOriginPrefix ||
    (LocalOriginPrefix + ":" <= origin && |origin| > |LocalOriginPrefix| + 1 && IsDigits(origin[|LocalOriginPrefix| + 1..]))
  }

  /** The prefix test lets through an origin whose host is not localhost. */
  lemma AllowedOriginAdmitsOtherHost()
    ensures AllowedOrigin("http://localhost.example.com")
    ensures Host("http://localhost.example.com") != "localhost"
  {
    var o := "http://localhost.example.com";
    assert o[..16] == LocalOriginPrefix;
    var rest := o[7..];
    assert |rest| == 21 && rest[9] == '.';
  }

  /**
   * The corrected predicate admits only "null" and origins whose host is
   * localhost, and admits nothing the original refuses.
   */
  lemma CorrectedAdmitsOnlyLocalhost(origin: string)
    requires AllowedOriginCorrected(origin)
    ensures AllowedOrigin(origin)
    ensures origin != "null" ==> "http://" <= origin && Host(origin) == "localhost"
  {
    if origin != "null" {
      assert origin[..|LocalOriginPrefix|] == LocalOriginPrefix;
      var rest := origin[7..];
      assert rest == "localhost" + rest[9..];
      HostPartStopsAtPort("localhost", rest[9..]);
    }
  }

  /** The host part of a colon-free name followed by nothing or a port is that name. */
  lemma {:induction false} HostPartStopsAtPort(name: string, tail: string)
    requires ':' !in name
    requires tail == [] || tail[0] == ':'
    ensures HostPart(name + tail) == name
  {
    if name != [] {
      assert (name + tail)[1..] == name[1..] + tail;
      HostPartStopsAtPort(name[1..], tail);
    }
  }

  /** Every origin on the local host, with any port, is still admitted. */
  lemma CorrectedAdmitsLocalPorts(port: string)
    requires |port| > 0 && IsDigits(port)
    ensures AllowedOriginCorrected(LocalOriginPrefix + ":" + port)
  {
    var o := LocalOriginPrefix + ":" + port;
    assert o[..|LocalOriginPrefix| + 1] == LocalOriginPrefix + ":";
    assert o[|LocalOriginPrefix| + 1..] == port;
  }
}
