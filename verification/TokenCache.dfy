/** The on-disk token cache: one file per sanitized API URL and username.
 *  File names can collide, so every record also carries the login it belongs to.
 */
module TokenCache {
  import opened Prelude
  import opened Tokens

  datatype LoginKey = LoginKey(apiUrl: string, username: string)

  datatype CachedLogin = CachedLogin(key: LoginKey, target: AuthTarget, tokens: TokenSet)

  type Files = map<string, CachedLogin>

  predicate IsAsciiAlphanumeric(c: char) {
    '0' <= c <= '9' || 'a' <= c <= 'z' || 'A' <= c <= 'Z'
  }

  function Sanitized(s: string): (r: string)
    ensures |r| == |s|
    ensures forall i :: 0 <= i < |s| ==> r[i] == if IsAsciiAlphanumeric(s[i]) then s[i] else '_'
  {
    seq(|s|, i requires 0 <= i < |s| => if IsAsciiAlphanumeric(s[i]) then s[i] else '_')
  }

  function FileName(key: LoginKey): string {
    Sanitized(key.apiUrl + "-" + key.username) + ".json"
  }

  /** What a login reads back: a record of another login counts as no cache. */
  function Load(files: Files, key: LoginKey): Option<CachedLogin> {
    var path := FileName(key);
    if path in files && files[path].key == key then Some(files[path]) else None
  }

  /** The operations that change the directory. One that fails changes nothing and is no operation. */
  datatype Op = Save(login: CachedLogin) | Clear(key: LoginKey)

  function Owner(op: Op): LoginKey {
    match op case Save(login) => login.key case Clear(key) => key
  }

  function Apply(files: Files, op: Op): Files {
    match op
    case Save(login) => files[FileName(login.key) := login]
    case Clear(key) => files - {FileName(key)}
  }

  function FilesAfter(ops: seq<Op>): Files {
    if ops == [] then map[] else Apply(FilesAfter(ops[..|ops| - 1]), ops[|ops| - 1])
  }

  /** The reference: a map from logins to records in which logins never meet. */
  function LastOwn(ops: seq<Op>, key: LoginKey): Option<CachedLogin> {
    if ops == [] then None
    else
      var op := ops[|ops| - 1];
      if Owner(op) != key then LastOwn(ops[..|ops| - 1], key)
      else if op.Save? then Some(op.login) else None
  }

  /** Whether a login with the same file name wrote or cleared after `key` last did. */
  predicate Disturbed(ops: seq<Op>, key: LoginKey) {
    ops != [] &&
    var op := ops[|ops| - 1];
    Owner(op) != key && (FileName(Owner(op)) == FileName(key) || Disturbed(ops[..|ops| - 1], key))
  }

  /** The file cache refines the per-login map and may only forget: a load gives exactly the
   *  login's own last record, unless a colliding login came after it, and then nothing. */
  lemma {:induction false} LoadForgetsOrIsOwn(ops: seq<Op>, key: LoginKey)
    ensures Load(FilesAfter(ops), key) == if Disturbed(ops, key) then None else LastOwn(ops, key)
  {
    if ops != [] {
      LoadForgetsOrIsOwn(ops[..|ops| - 1], key);
    }
  }

  /** Two logins share a file exactly when the URL, a dash and the username agree letter by letter and digit by
   *  digit; any other two characters look alike. */
  lemma CollideExactly(a: LoginKey, b: LoginKey)
    ensures
      var s, t := a.apiUrl + "-" + a.username, b.apiUrl + "-" + b.username;
      FileName(a) == FileName(b) <==>
        && |s| == |t|
        && forall i | 0 <= i < |s| :: s[i] == t[i] || !(IsAsciiAlphanumeric(s[i]) || IsAsciiAlphanumeric(t[i]))
  {
    var s, t := a.apiUrl + "-" + a.username, b.apiUrl + "-" + b.username;
    assert FileName(a)[..|s|] == Sanitized(s) && FileName(b)[..|t|] == Sanitized(t);
    assert |FileName(a)| == |s| + 5 && |FileName(b)| == |t| + 5;
    if FileName(a) == FileName(b) {
      assert Sanitized(s) == Sanitized(t);
      assert forall i | 0 <= i < |s| :: Sanitized(s)[i] == Sanitized(t)[i];
    }
  }

  /** Collisions are real, and one is enough to forget. */
  lemma CollisionForgets(a: CachedLogin, b: CachedLogin)
    requires a.key == LoginKey("https://n", "u") && b.key == LoginKey("https:__n", "u")
    ensures FileName(a.key) == FileName(b.key) && a.key != b.key
    ensures Load(FilesAfter([Save(a), Save(b)]), a.key) == None
    ensures Load(FilesAfter([Save(a), Save(b)]), b.key) == Some(b)
  {
    assert a.key.apiUrl[6] != b.key.apiUrl[6];
    assert Sanitized("https://n-u") == Sanitized("https:__n-u");
    var ops := [Save(a), Save(b)];
    assert ops[..1] == [Save(a)] && [Save(a)][..0] == [];
  }

  /** The cache directory as the client methods change it. */
  class CacheDir {
    var files: Files

    constructor ()
      ensures files == FilesAfter([])
    {
      files := map[];
    }

    method SaveLogin(key: LoginKey, target: AuthTarget, tokens: TokenSet, writable: bool) returns (ok: bool)
      modifies this
      ensures ok == writable
      ensures files == if ok then Apply(old(files), Save(CachedLogin(key, target, tokens))) else old(files)
      ensures ok ==> Load(files, key) == Some(CachedLogin(key, target, tokens))
    {
      var login := CachedLogin(key, target, tokens);
      if !writable {
        return false;
      }
      files := files[FileName(key) := login];
      return true;
    }

    /** `readable` is whether the directory and file are private and the record parses. */
    method LoadLogin(key: LoginKey, readable: bool) returns (login: Option<CachedLogin>)
      ensures login == if readable then Load(files, key) else None
      ensures login.Some? ==> login.value.key == key
    {
      var path := FileName(key);
      if !readable || path !in files {
        return None;
      }
      var found := files[path];
      if found.key.apiUrl == key.apiUrl && found.key.username == key.username {
        return Some(found);
      }
      return None;
    }

    /** Whether there was a record; a file that exists and cannot be deleted is an error and stays. */
    method ClearLogin(key: LoginKey, deletable: bool) returns (present: Outcome<bool>)
      modifies this
      ensures present.Failed? <==> FileName(key) in old(files) && !deletable
      ensures present.Ok? ==> present.value == (FileName(key) in old(files)) && Load(files, key) == None
      ensures files == if present.Ok? then Apply(old(files), Clear(key)) else old(files)
    {
      var path := FileName(key);
      if path !in files {
        return Ok(false);
      }
      if !deletable {
        return Failed;
      }
      files := files - {path};
      return Ok(true);
    }
  }
}
