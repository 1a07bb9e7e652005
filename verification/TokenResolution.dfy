/** publish.go: whose token a review is posted with, and what the publication row will say. */
module TokenResolution {
  import opened Domain
  import Worker

  /** A reviewer account: its id, whether any encrypted token is stored, and what decryption makes
      of it. */
  datatype Account = Account(id: nat, hasToken: bool, decrypted: Option<string>)

  /** What the look-ups of one Publish would return. None is an error or a missing row. */
  datatype World = World(
    login: Option<string>,
    account: Option<Account>,
    keyParses: bool,
    fallback: bool,
    installation: bool,
    appToken: Option<string>)

  datatype Identity = Identity(token: string, account: Option<nat>, kind: PublisherKind)

  /** The account counts only when the job names a login and a token is stored. */
  predicate Consulted(w: World) {
    w.login.Some? && w.login.value != "" && w.account.Some? && w.account.value.hasToken
  }

  /** A personal token that can be used: decrypted and not empty. */
  predicate PersonalToken(w: World) {
    Consulted(w) && w.account.value.decrypted.Some? && w.account.value.decrypted.value != ""
  }

  /** The personal token if it can be used, else the app's if that is allowed and can be had; an app
      publication still names the account whose token decrypted to nothing. */
  function Resolved(w: World): Option<Identity> {
    if Consulted(w) && !w.keyParses then None
    else if PersonalToken(w) then Some(Identity(w.account.value.decrypted.value, Some(w.account.value.id), User))
    else if !w.fallback || !w.installation || w.appToken.None? then None
    else
      Some(Identity(
        w.appToken.value,
        if Consulted(w) && w.account.value.decrypted.Some? then Some(w.account.value.id) else None,
        AppBot))
  }

  /** What a publication row can say of its publisher is exactly what the system's processes may be
      answered when they resolve a token. */
  lemma IdentitiesExactly(account: Option<nat>, kind: PublisherKind)
    ensures (exists w, token :: Resolved(w) == Some(Identity(token, account, kind))) <==>
            Worker.Fits(Worker.ResolveToken, Worker.Identity(account, kind))
  {
    if Worker.Publishable(account, kind) {
      var key := if account.Some? then Some(Account(account.value, true, Some(if kind.User? then "t" else ""))) else None;
      var w := World(Some("login"), key, true, true, true, Some("a"));
      assert Resolved(w) == Some(Identity(if kind.User? then "t" else "a", account, kind));
    }
  }

  method Resolve(w: World) returns (who: Option<Identity>)
    ensures who == Resolved(w)
    ensures who.Some? ==> Worker.Fits(Worker.ResolveToken, Worker.Identity(who.value.account, who.value.kind))
    ensures who.Some? <==>
            (Consulted(w) ==> w.keyParses) && (PersonalToken(w) || (w.fallback && w.installation && w.appToken.Some?))
    ensures who.Some? && PersonalToken(w) ==>
              who.value == Identity(w.account.value.decrypted.value, Some(w.account.value.id), User)
    ensures who.Some? && !PersonalToken(w) ==> who.value.kind == AppBot && who.value.token == w.appToken.value
      // An App Bot publication names a personal account exactly when that account's token decrypts to nothing.
    ensures who.Some? && who.value.kind == AppBot ==>
              (who.value.account.Some? <==> Consulted(w) && w.account.value.decrypted == Some(""))
  {
    var token := "";
    var pubAccountId := None;
    var kind := User;
    var account := None;
    if w.login.Some? && w.login.value != "" {
      account := w.account;
    }
    if account.Some? && account.value.hasToken {
      if !w.keyParses {
        return None;
      }
      if account.value.decrypted.Some? {
        token := account.value.decrypted.value;
        pubAccountId := Some(account.value.id);
      }
    }
    if token == "" {
      if !w.fallback {
        return None;
      }
      if !w.installation {
        return None;
      }
      if w.appToken.None? {
        return None;
      }
      token := w.appToken.value;
      kind := AppBot;
    }
    who := Some(Identity(token, pubAccountId, kind));
  }
}
