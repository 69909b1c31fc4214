/**
 * The `employee` table of web.py and the four operations over it:
 * registration (`create_user`), login (`authenticate`), and reading and
 * writing a user's configuration (`load_user_config`, `save_user_config`).
 * The table is an in-memory map from the auto-increment row id to the row;
 * a failure of the database driver is an optional message handed in by the
 * caller, and password hashing is an ideal hash.
 */
module Accounts {
  import opened Wrappers
  import opened PyValues
  import opened Normalizer

  // ---------------------------------------------------------------------
  // Password hashing
  // ---------------------------------------------------------------------

  /**
   * What `pwd_context.hash` stores, idealised as a hash without collisions:
   * the salt and an abstract injective image of the password, here the
   * password itself, which no other password verifies against. The Argon2
   * encoding is not modelled.
   */
  datatype PasswordHash = IdealHash(salt: nat, image: string)

  /** `pwd_context.hash(password)`, the salt being the hasher's random choice. */
  function HashPassword(password: string, salt: nat): PasswordHash {
    IdealHash(salt, password)
  }

  /** `pwd_context.verify(password, h)`. */
  predicate VerifyPassword(password: string, h: PasswordHash) {
    password == h.image
  }

  /** A hash verifies exactly the password it was made from, whatever the salt. */
  lemma VerifyHashed(p: string, q: string, salt: nat)
    ensures VerifyPassword(q, HashPassword(p, salt)) <==> q == p
  {
  }

  // ---------------------------------------------------------------------
  // Rows and the configuration columns
  // ---------------------------------------------------------------------

  /** A row of `employee`; the five configuration columns may hold NULL (None). */
  datatype Employee = Employee(
    employeeId: string,
    realName: string,
    passwordHash: PasswordHash,
    timeRange: Option<string>,
    outputFormat: Option<string>,
    query: Option<string>,
    rounds: Option<int>,
    showThinking: Option<int>)

  /** `show_thinking` as the column stores it: 1 or 0. */
  function FlagColumn(b: bool): int {
    if b then 1 else 0
  }

  /**
   * The row with its five configuration columns overwritten from `c`, as the
   * INSERT of `create_user` and the UPDATE of `save_user_config` write them;
   * the identity and credential columns are kept.
   */
  function WithConfig(e: Employee, c: Config): (e': Employee)
    ensures e'.employeeId == e.employeeId && e'.realName == e.realName
    ensures e'.passwordHash == e.passwordHash
  {
    e.(timeRange := Some(c.timeRange), outputFormat := Some(c.outputFormat), query := Some(c.query),
       rounds := Some(c.rounds), showThinking := Some(FlagColumn(c.showThinking)))
  }

  /** A text column as the driver returns it: NULL is Python's None. */
  function TextColumn(v: Option<string>): PyValue {
    match v
    case Some(s) => PyStr(s)
    case None => PyNone
  }

  /**
   * The dict `load_user_config` builds from the five columns before
   * normalising it: a NULL `rounds` becomes 2, `show_thinking` becomes
   * `bool()` of the column.
   */
  function RowConfig(e: Employee): (r: RawCfg)
    ensures r.DictCfg? && forall k: CfgKey :: k.Name() in r.entries
    ensures Normalize(r).Ok?
  {
    KeysDistinct();
    DictCfg(map[TimeRange.Name() := TextColumn(e.timeRange),
                OutputFormat.Name() := TextColumn(e.outputFormat),
                Query.Name() := TextColumn(e.query),
                Rounds.Name() := PyInt(e.rounds.GetOr(DefaultCfg.rounds)),
                ShowThinking.Name() := PyBool(e.showThinking.Some? && e.showThinking.value != 0)])
  }

  /**
   * The configuration `load_user_config` returns for a row: the row's dict
   * normalised, or `DEFAULT_CFG` should the normaliser raise, which it never
   * does on what the columns hold.
   */
  function ConfigOfRow(e: Employee): (c: Config)
    ensures Normalize(RowConfig(e)) == Ok(c)
    ensures ValidConfig(c)
  {
    var d := RowConfig(e);
    KeysDistinct();
    assert Field(d, TimeRange) == TextColumn(e.timeRange);
    assert Field(d, OutputFormat) == TextColumn(e.outputFormat);
    assert Field(d, Query) == TextColumn(e.query);
    NormalizeValid(d);
    match Normalize(d)
    case Ok(c) => c
    case Err(_) => DefaultCfg
  }

  /** Reading back the columns written from an in-range configuration gives that configuration. */
  lemma {:induction false} ReadWrittenColumns(e: Employee, c: Config)
    requires ValidConfig(c)
    ensures ConfigOfRow(WithConfig(e, c)) == c
  {
    KeysDistinct();
    var c' := c.(showThinking := FlagColumn(c.showThinking) != 0);
    assert c' == c;
    assert RowConfig(WithConfig(e, c)) == AsInput(c);
    FixedPointIffValid(c);
  }

  /**
   * What `save_user_config` stores for a configuration the normaliser
   * accepts is what `load_user_config` then returns: its normal form.
   */
  lemma {:induction false} SaveLoadRoundTrip(e: Employee, cfg: RawCfg)
    ensures Normalize(cfg).Ok? ==> ConfigOfRow(WithConfig(e, Normalize(cfg).value)) == Normalize(cfg).value
  {
    if Normalize(cfg).Ok? {
      NormalizeValid(cfg);
      ReadWrittenColumns(e, Normalize(cfg).value);
    }
  }

  // ---------------------------------------------------------------------
  // Messages
  // ---------------------------------------------------------------------

  const MsgRegisterEmpty: string := "工号/姓名/密码不能为空"
  const MsgRegistered: string := "注册成功"
  const MsgDuplicateId: string := "该工号已注册"
  const MsgRegisterFailed: string := "注册失败："
  const MsgLoginEmpty: string := "工号/密码不能为空"
  const MsgNoSuchId: string := "工号不存在"
  const MsgWrongPassword: string := "密码错误"
  const MsgLoggedIn: string := "登录成功"
  const MsgLoginFailed: string := "登录失败："
  const MsgSaved: string := "保存成功"
  const MsgSaveFailed: string := "保存失败："

  /** The triple `authenticate` returns: success, the row id, and a message. */
  datatype LoginResult = LoginResult(ok: bool, userId: Option<int>, message: string)

  // ---------------------------------------------------------------------
  // The table
  // ---------------------------------------------------------------------

  class EmployeeTable {
    /** The rows, by their auto-increment `id`. */
    var rows: map<int, Employee>
    /** The `id` the next inserted row receives. */
    var nextId: int

    /** Ids are positive and below `nextId`; `employee_id` is unique. */
    ghost predicate Valid()
      reads this
    {
      1 <= nextId &&
      (forall id :: id in rows ==> 1 <= id < nextId) &&
      (forall i, j :: i in rows && j in rows && rows[i].employeeId == rows[j].employeeId ==> i == j)
    }

    /** An empty table. */
    constructor ()
      ensures Valid() && rows == map[] && nextId == 1
    {
      rows := map[];
      nextId := 1;
    }

    /** `SELECT id FROM employee WHERE employee_id = %s`: the one row with that id, if any. */
    function FindEmployee(employeeId: string): (r: Option<int>)
      reads this
      requires Valid()
      ensures r.Some? ==> r.value in rows && rows[r.value].employeeId == employeeId
      ensures r.None? <==> forall id :: id in rows ==> rows[id].employeeId != employeeId
    {
      if exists id :: id in rows && rows[id].employeeId == employeeId then
        var id :| id in rows && rows[id].employeeId == employeeId;
        Some(id)
      else
        None
    }

    /**
     * `create_user`: the id and the name are stripped, and none of them nor
     * the password may be empty; then the row is inserted with the hashed
     * password and the default configuration. A driver failure or an id
     * already registered leaves the table as it was.
     */
    method CreateUser(employeeId: string, realName: string, password: string, salt: nat, fault: Option<string>)
      returns (ok: bool, message: string)
      requires Valid()
      modifies this
      ensures Valid()
      ensures var id, name := Strip(employeeId), Strip(realName);
        if id == [] || name == [] || password == [] then
          !ok && message == MsgRegisterEmpty && rows == old(rows) && nextId == old(nextId)
        else if fault.Some? then
          !ok && message == MsgRegisterFailed + fault.value && rows == old(rows) && nextId == old(nextId)
        else if exists r :: r in old(rows) && old(rows)[r].employeeId == id then
          !ok && message == MsgDuplicateId && rows == old(rows) && nextId == old(nextId)
        else
          ok && message == MsgRegistered && nextId == old(nextId) + 1 &&
          old(nextId) !in old(rows) &&
          rows == old(rows)[old(nextId) := NewEmployee(id, name, HashPassword(password, salt))]
    {
      var id := Strip(employeeId);
      var name := Strip(realName);
      if id == [] || name == [] || password == [] {
        return false, MsgRegisterEmpty;
      }
      var hash := HashPassword(password, salt);
      if fault.Some? {
        return false, MsgRegisterFailed + fault.value;
      }
      ok, message := Insert(NewEmployee(id, name, hash));
    }

    /**
     * The INSERT of `create_user`: the row gets the next id unless its
     * `employee_id` is taken, which the unique constraint refuses.
     */
    method Insert(row: Employee) returns (ok: bool, message: string)
      requires Valid()
      modifies this
      ensures Valid()
      ensures ok <==> forall r :: r in old(rows) ==> old(rows)[r].employeeId != row.employeeId
      ensures ok ==> (message == MsgRegistered && old(nextId) !in old(rows) &&
        rows == old(rows)[old(nextId) := row] && nextId == old(nextId) + 1)
      ensures !ok ==> message == MsgDuplicateId && rows == old(rows) && nextId == old(nextId)
    {
      if FindEmployee(row.employeeId).Some? {
        return false, MsgDuplicateId;
      }
      rows := rows[nextId := row];
      nextId := nextId + 1;
      return true, MsgRegistered;
    }

    /**
     * `authenticate`: the id is stripped, and neither it nor the password may
     * be empty; the row with that `employee_id` must exist and its hash must
     * verify the password. Only then is the row id returned. The table is
     * only read.
     */
    function Authenticate(employeeId: string, password: string, fault: Option<string>): (r: LoginResult)
      reads this
      requires Valid()
      ensures var id := Strip(employeeId);
        r.ok <==> (id != [] && password != [] && fault.None? &&
          exists u :: u in rows && rows[u].employeeId == id && VerifyPassword(password, rows[u].passwordHash))
      ensures r.ok ==> (r.userId.Some? && r.userId.value in rows &&
        rows[r.userId.value].employeeId == Strip(employeeId) && r.message == MsgLoggedIn)
      ensures !r.ok ==> r.userId.None?
      ensures Strip(employeeId) == [] || password == [] ==> r.message == MsgLoginEmpty
      ensures Strip(employeeId) != [] && password != [] && fault.Some? ==> r.message == MsgLoginFailed + fault.value
      ensures Strip(employeeId) != [] && password != [] && fault.None? ==>
        ((forall u :: u in rows ==> rows[u].employeeId != Strip(employeeId)) <==> r.message == MsgNoSuchId)
      ensures Strip(employeeId) != [] && password != [] && fault.None? ==>
        ((exists u :: u in rows && rows[u].employeeId == Strip(employeeId) &&
           !VerifyPassword(password, rows[u].passwordHash)) <==> r.message == MsgWrongPassword)
    {
      var id := Strip(employeeId);
      if id == [] || password == [] then LoginResult(false, None, MsgLoginEmpty)
      else if fault.Some? then LoginResult(false, None, MsgLoginFailed + fault.value)
      else
        match FindEmployee(id)
        case None => LoginResult(false, None, MsgNoSuchId)
        case Some(u) =>
          if !VerifyPassword(password, rows[u].passwordHash) then LoginResult(false, None, MsgWrongPassword)
          else LoginResult(true, Some(u), MsgLoggedIn)
    }

    /**
     * `load_user_config`: the row's columns through the normaliser, or
     * `DEFAULT_CFG` when the row is missing or the driver fails. Always in range.
     */
    function LoadUserConfig(userId: int, fault: Option<string>): (c: Config)
      reads this
      ensures ValidConfig(c)
      ensures fault.Some? || userId !in rows ==> c == DefaultCfg
      ensures fault.None? && userId in rows ==> c == ConfigOfRow(rows[userId])
    {
      if fault.Some? || userId !in rows then DefaultCfg else ConfigOfRow(rows[userId])
    }

    /**
     * `save_user_config`: normalises `cfg` and overwrites the five
     * configuration columns of row `userId`, and of no other row. It reports
     * success also when no row has that id. The exception of a normaliser
     * that raises, and then a driver failure, are reported instead, and then
     * nothing is written.
     */
    method SaveUserConfig(userId: int, cfg: RawCfg, fault: Option<string>) returns (ok: bool, message: string)
      requires Valid()
      modifies this
      ensures Valid() && nextId == old(nextId)
      ensures Normalize(cfg).Err? ==> !ok && message == MsgSaveFailed + Normalize(cfg).error && rows == old(rows)
      ensures Normalize(cfg).Ok? && fault.Some? ==>
        !ok && message == MsgSaveFailed + fault.value && rows == old(rows)
      ensures Normalize(cfg).Ok? && fault.None? ==> (ok && message == MsgSaved &&
        rows == if userId in old(rows) then old(rows)[userId := WithConfig(old(rows)[userId], Normalize(cfg).value)]
                else old(rows))
    {
      var normalized := Normalize(cfg);
      if normalized.Err? {
        return false, MsgSaveFailed + normalized.error;
      }
      if fault.Some? {
        return false, MsgSaveFailed + fault.value;
      }
      if userId in rows {
        rows := rows[userId := WithConfig(rows[userId], normalized.value)];
      }
      return true, MsgSaved;
    }

    /**
     * Saving then loading a user's configuration gives back the normalised
     * candidate; when the normaliser raises, the save fails and the load
     * gives back what was stored before.
     */
    method SaveThenLoad(userId: int, cfg: RawCfg) returns (saved: bool, loaded: Config)
      requires Valid()
      modifies this
      ensures Valid()
      ensures saved <==> Normalize(cfg).Ok?
      ensures saved && userId in old(rows) ==> loaded == Normalize(cfg).value
      ensures !saved ==> rows == old(rows) && loaded == old(LoadUserConfig(userId, None))
      ensures userId !in old(rows) ==> loaded == DefaultCfg && rows == old(rows)
    {
      var message;
      saved, message := SaveUserConfig(userId, cfg, None);
      loaded := LoadUserConfig(userId, None);
      if saved && userId in old(rows) {
        SaveLoadRoundTrip(old(rows)[userId], cfg);
      }
    }

    /**
     * Registering and then logging in with the same credentials returns the
     * id the new row received, and that row holds the default configuration.
     */
    method RegisterThenLogin(employeeId: string, realName: string, password: string, salt: nat)
      returns (registered: bool, login: LoginResult)
      requires Valid()
      modifies this
      ensures Valid()
      ensures registered <==> (Strip(employeeId) != [] && Strip(realName) != [] && password != [] &&
        forall r :: r in old(rows) ==> old(rows)[r].employeeId != Strip(employeeId))
      ensures registered ==> login == LoginResult(true, Some(old(nextId)), MsgLoggedIn)
      ensures registered ==> LoadUserConfig(old(nextId), None) == DefaultCfg
    {
      var message;
      registered, message := CreateUser(employeeId, realName, password, salt, None);
      login := Authenticate(employeeId, password, None);
      if registered {
        var id := old(nextId);
        assert id in rows && rows[id].employeeId == Strip(employeeId);
        assert FindEmployee(Strip(employeeId)) == Some(id);
        VerifyHashed(password, password, salt);
      }
    }
  }

  /** The row `create_user` inserts: identity, hash, and the columns of `_normalize_cfg({})`. */
  function NewEmployee(employeeId: string, realName: string, hash: PasswordHash): (e: Employee)
    ensures e.employeeId == employeeId && e.realName == realName && e.passwordHash == hash
    ensures ConfigOfRow(e) == DefaultCfg
  {
    NormalizeDefaults(PyNone);
    var e := WithConfig(Employee(employeeId, realName, hash, None, None, None, None, None), Normalize(DictCfg(map[])).value);
    ReadWrittenColumns(Employee(employeeId, realName, hash, None, None, None, None, None), DefaultCfg);
    e
  }
}
