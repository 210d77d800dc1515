/**
 The directory of saved accounts: one file per account, named by an id.

 A save finds the account it is about among the accounts of the same site, merges it, writes one file
 and removes duplicates.  The order in which accounts are listed is a parameter: every result holds
 for any order.
 */
module AccountDirectory {
  import opened Common

  const NAME_MAX: nat := 160

  datatype Status = Prepared | Reported | Active | Blocked | Closed

  datatype Login = Password | EmailCode | MagicLink | OAuth | UnknownLogin

  datatype Owner = Assistant | User | UnknownOwner

  datatype Origin = Origin(scheme: string, host: string)

  datatype Account = Account(id: string, origin: Origin, username: string, email: Option<string>, owner: Owner,
                             status: Status, login: Option<Login>, credential: Option<string>, chat: Option<string>,
                             updatedAt: nat)

  datatype Input = Input(origin: Origin, username: string, email: Option<string>, owner: Option<Owner>, status: Status,
                         login: Option<Login>, credential: Option<string>, chat: Option<string>)

  /** The id of a new account, from its origin and its user name in lower case. */
  type IdOf = (Origin, string) -> string

  // ---------------------------------------------------------------- names

  predicate IsControl(c: char) {
    c < ' ' || c == '\U{7f}'
  }

  function Blank(s: string): (r: string)
    ensures |r| == |s| && forall i :: 0 <= i < |s| ==> r[i] == if IsControl(s[i]) then ' ' else s[i]
  {
    if s == "" then "" else [if IsControl(s[0]) then ' ' else s[0]] + Blank(s[1..])
  }

  function TrimLeft(s: string): string {
    if s != "" && s[0] == ' ' then TrimLeft(s[1..]) else s
  }

  function TrimRight(s: string): string {
    if s != "" && s[|s| - 1] == ' ' then TrimRight(s[..|s| - 1]) else s
  }

  function Cut(s: string): string {
    if |s| > NAME_MAX then s[..NAME_MAX] else s
  }

  function Clean(s: string): string {
    Cut(TrimRight(TrimLeft(Blank(s))))
  }

  function LowerChar(c: char): char {
    if 'A' <= c <= 'Z' then (c as int + 32) as char else c
  }

  function Lower(s: string): (r: string)
    ensures |r| == |s|
  {
    if s == "" then "" else [LowerChar(s[0])] + Lower(s[1..])
  }

  predicate SameName(a: string, b: string) {
    Lower(a) == Lower(b)
  }

  function LocalPart(email: string): string {
    if email == "" || email[0] == '@' then "" else [email[0]] + LocalPart(email[1..])
  }

  ghost predicate Trimmed(s: string) {
    s == "" || (s[0] != ' ' && s[|s| - 1] != ' ')
  }

  ghost predicate Plain(s: string) {
    forall i :: 0 <= i < |s| ==> !IsControl(s[i])
  }

  lemma {:induction false} TrimLeftTrims(s: string)
    requires Plain(s)
    ensures Plain(TrimLeft(s)) && (TrimLeft(s) == "" || TrimLeft(s)[0] != ' ')
  {
    if s != "" && s[0] == ' ' {
      TrimLeftTrims(s[1..]);
    }
  }

  lemma {:induction false} TrimRightTrims(s: string)
    requires Plain(s) && (s == "" || s[0] != ' ')
    ensures Plain(TrimRight(s)) && Trimmed(TrimRight(s))
  {
    if s != "" && s[|s| - 1] == ' ' {
      TrimRightTrims(s[..|s| - 1]);
    }
  }

  function Trim(s: string): string {
    TrimRight(TrimLeft(Blank(s)))
  }

  lemma TrimTrims(s: string)
    ensures Plain(Trim(s)) && Trimmed(Trim(s))
  {
    assert Plain(Blank(s));
    TrimLeftTrims(Blank(s));
    TrimRightTrims(TrimLeft(Blank(s)));
  }

  lemma BlankIsPlain(s: string)
    requires Plain(s)
    ensures Blank(s) == s
  {
  }

  lemma {:induction false} TrimRightShortens(s: string)
    ensures |TrimRight(s)| <= |s| && TrimRight(s) == s[..|TrimRight(s)|]
  {
    if s != "" && s[|s| - 1] == ' ' {
      TrimRightShortens(s[..|s| - 1]);
    }
  }

  /** A trimmed name stays trimmed, unless cutting it to length leaves a space at the end. */
  lemma CleanIsStableIff(s: string)
    ensures Clean(Clean(s)) == Clean(s) <==> |Trim(s)| <= NAME_MAX || Trim(s)[NAME_MAX - 1] != ' '
  {
    TrimTrims(s);
    var name := Clean(s);
    assert name == Cut(Trim(s)) && Plain(name);
    BlankIsPlain(name);
    assert TrimLeft(name) == name;
    if |Trim(s)| > NAME_MAX && name[NAME_MAX - 1] == ' ' {
      assert TrimRight(name) == TrimRight(name[..NAME_MAX - 1]);
      TrimRightShortens(name[..NAME_MAX - 1]);
    } else {
      assert TrimRight(name) == name;
    }
  }

  lemma {:induction false} TrimLeftShortens(s: string)
    ensures |TrimLeft(s)| <= |s|
  {
    if s != "" && s[0] == ' ' {
      TrimLeftShortens(s[1..]);
    }
  }

  lemma ShortNamesAreStable(s: string)
    requires |s| <= NAME_MAX
    ensures Clean(Clean(s)) == Clean(s)
  {
    TrimLeftShortens(Blank(s));
    TrimRightShortens(TrimLeft(Blank(s)));
    CleanIsStableIff(s);
  }

  // ---------------------------------------------------------------- finding the account

  function Site(origin: Origin): Origin {
    if StartsWith(origin.host, "www.") then Origin(origin.scheme, origin.host[4..]) else origin
  }

  /** What listing shows of a file: the name is cleaned again. */
  function Listed(a: Account): Account {
    a.(username := Clean(a.username))
  }

  predicate SameSite(a: Account, origin: Origin) {
    Site(a.origin) == Site(origin)
  }

  predicate Exact(a: Account, input: Input) {
    || SameName(a.username, Clean(input.username))
    || (a.email.Some? && SameName(a.email.value, Clean(input.username)))
    || (input.credential.Some? && a.credential == input.credential)
  }

  predicate Alias(a: Account, input: Input) {
    || (input.email.Some? && SameName(LocalPart(input.email.value), a.username))
    || (a.email.Some? && SameName(LocalPart(a.email.value), Clean(input.username)))
  }

  predicate SameSignup(a: Account, input: Input) {
    input.chat.Some? && input.chat.value != "" && a.chat == input.chat && a.status.Prepared? && a.credential.Some?
  }

  function Filter(list: seq<Account>, keep: Account -> bool): (r: seq<Account>)
    ensures forall a :: a in r <==> a in list && keep(a)
    decreases |list|
  {
    if list == [] then [] else
    var rest := Filter(list[1..], keep);
    assert list == [list[0]] + list[1..];
    if keep(list[0]) then [list[0]] + rest else rest
  }

  function Only(list: seq<Account>): Option<Account> {
    if |list| == 1 then Some(list[0]) else None
  }

  /** The listed account a save is about: an exact match, else a sole alias, else the sole signup of the chat. */
  function Identify(list: seq<Account>, input: Input): (r: Option<Account>)
    ensures r.Some? ==> r.value in list && SameSite(r.value, input.origin)
    ensures (exists a :: a in list && SameSite(a, input.origin) && Exact(a, input)) ==> r.Some? && Exact(r.value, input)
  {
    var same := Filter(list, a => SameSite(a, input.origin));
    var exact := Filter(same, a => Exact(a, input));
    var aliases := Filter(same, a => Alias(a, input));
    var signups := Filter(same, a => SameSignup(a, input));
    if exact != [] then (assert exact[0] in exact; Some(exact[0]))
    else if Only(aliases).Some? then (assert aliases[0] in aliases; Only(aliases))
    else if Only(signups).Some? then (assert signups[0] in signups; Only(signups))
    else None
  }

  // ---------------------------------------------------------------- merging

  predicate Weak(status: Status) {
    status.Prepared? || status.Reported?
  }

  predicate NoPassword(login: Login) {
    login.EmailCode? || login.MagicLink? || login.OAuth?
  }

  function Either<T>(a: Option<T>, b: Option<T>): Option<T> {
    if a.Some? then a else b
  }

  function MergedStatus(input: Status, known: Option<Status>): Status {
    if known.Some? && (input.Prepared? || (input.Reported? && !Weak(known.value))) then known.value else input
  }

  /** Optional fields of the known account, if there is one. */
  function EmailOf(known: Option<Account>): Option<string> {
    if known.Some? then known.value.email else None
  }

  function CredentialOf(known: Option<Account>): Option<string> {
    if known.Some? then known.value.credential else None
  }

  function ChatOf(known: Option<Account>): Option<string> {
    if known.Some? then known.value.chat else None
  }

  function StatusOf(known: Option<Account>): Option<Status> {
    if known.Some? then Some(known.value.status) else None
  }

  function LoginOf(known: Option<Account>, input: Input): Login {
    if input.login.Some? then input.login.value
    else if known.Some? && known.value.login.Some? then known.value.login.value else UnknownLogin
  }

  /** A credential is kept only for a login that may use a password. */
  function SavedCredential(known: Option<Account>, input: Input): Option<string> {
    if NoPassword(LoginOf(known, input)) then None else Either(input.credential, CredentialOf(known))
  }

  function SavedId(known: Option<Account>, input: Input, idOf: IdOf): string {
    if known.Some? then known.value.id else idOf(input.origin, Lower(Clean(input.username)))
  }

  function Merge(known: Option<Account>, input: Input, idOf: IdOf, now: nat): Account {
    var origin := if input.status.Reported? && known.Some? && known.value.credential.Some? then known.value.origin
                  else input.origin;
    var username := if known.Some? && input.status.Prepared? then known.value.username else Clean(input.username);
    var owner := if input.owner.Some? && !input.owner.value.UnknownOwner? then input.owner.value
                 else if known.Some? then known.value.owner else UnknownOwner;
    Account(SavedId(known, input, idOf), origin, username, Either(input.email, EmailOf(known)), owner,
            MergedStatus(input.status, StatusOf(known)), Some(LoginOf(known, input)), SavedCredential(known, input),
            Either(input.chat, ChatOf(known)), now)
  }

  // ---------------------------------------------------------------- saving

  predicate Duplicates(a: Account, account: Account, origin: Origin) {
    && SameSite(a, origin) && a.id != account.id
    && (SameName(a.username, account.username) || (a.credential.Some? && a.credential == account.credential))
  }

  function WithoutDuplicates(files: map<string, Account>, account: Account, origin: Origin): map<string, Account> {
    map id | id in files && !Duplicates(Listed(files[id]), account, origin) :: files[id]
  }

  predicate Acceptable(input: Input) {
    Clean(input.username) != ""
  }

  /** Every file once, in some order. */
  ghost predicate IsOrder(order: seq<string>, files: map<string, Account>) {
    && (forall id :: id in order <==> id in files)
    && (forall i, j :: 0 <= i < j < |order| ==> order[i] != order[j])
    && (forall id :: id in files ==> files[id].id == id)
  }

  function List(order: seq<string>, files: map<string, Account>): (r: seq<Account>)
    requires forall id :: id in order ==> id in files
    ensures forall a :: a in r <==> exists id :: id in order && a == Listed(files[id])
    decreases |order|
  {
    if order == [] then [] else
    assert order == [order[0]] + order[1..];
    [Listed(files[order[0]])] + List(order[1..], files)
  }

  function Known(order: seq<string>, files: map<string, Account>, input: Input): Option<Account>
    requires forall id :: id in order ==> id in files
  {
    Identify(List(order, files), input)
  }

  /** The account a save results in, and the files after it; nothing if the input is refused. */
  function Save(files: map<string, Account>, order: seq<string>, input: Input, idOf: IdOf, now: nat)
    : (r: (map<string, Account>, Option<Account>))
    requires forall id :: id in order ==> id in files
  {
    if !Acceptable(input) then (files, None) else
    var known := Known(order, files, input);
    var account := Merge(known, input, idOf, now);
    if known.Some? && known.value.(updatedAt := now) == account then
      (WithoutDuplicates(files, account, input.origin), known)
    else
      (WithoutDuplicates(files, account, input.origin)[account.id := account], Some(account))
  }

  ghost predicate ListsDuplicate(list: seq<Account>, id: string, account: Account, origin: Origin) {
    exists a :: a in list && a.id == id && Duplicates(a, account, origin)
  }

  class Directory {
    var files: map<string, Account>

    constructor ()
      ensures files == map[]
    {
      files := map[];
    }

    /** `same` is the listing taken before the new file was written. */
    method RemoveDuplicates(same: seq<Account>, account: Account, origin: Origin)
      modifies this
      ensures Removed(old(files), files, same, account, origin)
    {
      var i := 0;
      while i < |same|
        invariant 0 <= i <= |same|
        invariant forall id :: id in files ==> id in old(files) && files[id] == old(files)[id]
        invariant forall id :: id in old(files) ==>
                    (id in files <==> !ListsDuplicate(same[..i], id, account, origin))
      {
        assert same[..i + 1] == same[..i] + [same[i]];
        if Duplicates(same[i], account, origin) {
          files := files - {same[i].id};
        }
        i := i + 1;
      }
      assert same[..i] == same;
    }

    method SaveAccount(input: Input, order: seq<string>, idOf: IdOf, now: nat) returns (saved: Option<Account>)
      requires IsOrder(order, files)
      modifies this
      ensures (files, saved) == Save(old(files), order, input, idOf, now)
    {
      if Clean(input.username) == "" {
        return None;
      }
      var same := List(order, files);
      var known := Identify(same, input);
      var account := Merge(known, input, idOf, now);
      if known.Some? && known.value.(updatedAt := now) == account {
        RemoveDuplicates(same, account, input.origin);
        RemovalIs(old(files), files, order, account, input.origin);
        return known;
      }
      files := files[account.id := account];
      RemoveDuplicates(same, account, input.origin);
      RemovalOnceWritten(old(files), files, order, account, input.origin);
      return Some(account);
    }
  }

  lemma ListedDuplicate(files: map<string, Account>, order: seq<string>, account: Account, origin: Origin, id: string)
    requires IsOrder(order, files)
    ensures ListsDuplicate(List(order, files), id, account, origin) <==>
            id in files && Duplicates(Listed(files[id]), account, origin)
  {
    if id in files && Duplicates(Listed(files[id]), account, origin) {
      assert Listed(files[id]) in List(order, files);
    }
    if a :| a in List(order, files) && a.id == id && Duplicates(a, account, origin) {
      var k :| k in order && a == Listed(files[k]);
      assert k == id;
    }
  }

  /** `after` is `written` without the files the listing shows as duplicates. */
  ghost predicate Removed(written: map<string, Account>, after: map<string, Account>, same: seq<Account>, account: Account,
                          origin: Origin) {
    && (forall id :: id in after ==> id in written && after[id] == written[id])
    && (forall id :: id in written ==> (id in after <==> !ListsDuplicate(same, id, account, origin)))
  }

  /** Removing the listed duplicates when the account is already stored as it is. */
  lemma RemovalIs(before: map<string, Account>, after: map<string, Account>, order: seq<string>, account: Account,
                  origin: Origin)
    requires IsOrder(order, before) && Removed(before, after, List(order, before), account, origin)
    ensures after == WithoutDuplicates(before, account, origin)
  {
    forall id | id in before
      ensures id in after <==> !Duplicates(Listed(before[id]), account, origin)
    {
      ListedDuplicate(before, order, account, origin, id);
    }
  }

  /** Removing the listed duplicates after the account is written. */
  lemma RemovalOnceWritten(before: map<string, Account>, after: map<string, Account>, order: seq<string>, account: Account,
                           origin: Origin)
    requires IsOrder(order, before)
    requires Removed(before[account.id := account], after, List(order, before), account, origin)
    ensures after == WithoutDuplicates(before, account, origin)[account.id := account]
  {
    var written := before[account.id := account];
    var kept := WithoutDuplicates(before, account, origin);
    forall id | id in written
      ensures id in after <==> id !in before || id in kept
    {
      ListedDuplicate(before, order, account, origin, id);
    }
    RemovalAfterWrite(before, written, after, account, origin);
  }

  lemma RemovalAfterWrite(before: map<string, Account>, written: map<string, Account>, after: map<string, Account>,
                          account: Account, origin: Origin)
    requires written == before[account.id := account]
    requires forall id :: id in after ==> id in written && after[id] == written[id]
    requires forall id :: id in written ==> (id in after <==> id !in before || id in WithoutDuplicates(before, account, origin))
    requires account.id in before ==> before[account.id].id == account.id
    ensures after == WithoutDuplicates(before, account, origin)[account.id := account]
  {
    assert account.id in written;
  }

  // ---------------------------------------------------------------- what every file satisfies

  ghost predicate FileOk(id: string, a: Account) {
    && a.id == id && |a.username| <= NAME_MAX
    && (a.login.Some? && NoPassword(a.login.value) ==> a.credential.None?)
  }

  ghost predicate FilesOk(files: map<string, Account>) {
    forall id :: id in files ==> FileOk(id, files[id])
  }

  /** Two accounts of one site share neither their listed name, ignoring case, nor a credential. */
  ghost predicate Apart(a: Account, b: Account) {
    SameSite(a, b.origin) ==>
      !SameName(Clean(a.username), Clean(b.username)) && !(a.credential.Some? && a.credential == b.credential)
  }

  ghost predicate Unique(files: map<string, Account>) {
    forall x, y :: x in files && y in files && x != y ==> Apart(files[x], files[y])
  }

  lemma KnownIsListed(files: map<string, Account>, order: seq<string>, input: Input)
    requires IsOrder(order, files) && Known(order, files, input).Some?
    ensures var known := Known(order, files, input).value;
            known.id in files && known == Listed(files[known.id]) && SameSite(known, input.origin)
  {
    var known := Known(order, files, input).value;
    var id :| id in order && known == Listed(files[id]);
  }

  lemma ExactIsKnown(files: map<string, Account>, order: seq<string>, input: Input, id: string)
    requires IsOrder(order, files) && id in files && SameSite(files[id], input.origin) && Exact(Listed(files[id]), input)
    ensures Known(order, files, input).Some? && Exact(Known(order, files, input).value, input)
  {
    assert Listed(files[id]) in List(order, files);
  }

  lemma CleanIsShort(name: string)
    ensures |Clean(name)| <= NAME_MAX
  {
  }

  lemma MergeIsOk(known: Option<Account>, input: Input, idOf: IdOf, now: nat)
    requires known.Some? ==> |known.value.username| <= NAME_MAX
    ensures FileOk(Merge(known, input, idOf, now).id, Merge(known, input, idOf, now))
  {
    CleanIsShort(input.username);
  }

  lemma KnownIsShort(files: map<string, Account>, order: seq<string>, input: Input)
    requires IsOrder(order, files) && Known(order, files, input).Some?
    ensures |Known(order, files, input).value.username| <= NAME_MAX
  {
    KnownIsListed(files, order, input);
    CleanIsShort(files[Known(order, files, input).value.id].username);
  }

  /** No account that logs in by code, link or another service keeps a credential. */
  lemma SaveKeepsFiles(files: map<string, Account>, order: seq<string>, input: Input, idOf: IdOf, now: nat)
    requires IsOrder(order, files) && FilesOk(files)
    ensures FilesOk(Save(files, order, input, idOf, now).0)
  {
    if Acceptable(input) {
      var known := Known(order, files, input);
      if known.Some? {
        KnownIsShort(files, order, input);
      }
      MergeIsOk(known, input, idOf, now);
      WritingKeepsFiles(files, Merge(known, input, idOf, now), input.origin);
    }
  }

  lemma WritingKeepsFiles(files: map<string, Account>, account: Account, origin: Origin)
    requires FilesOk(files) && FileOk(account.id, account)
    ensures FilesOk(WithoutDuplicates(files, account, origin))
    ensures FilesOk(WithoutDuplicates(files, account, origin)[account.id := account])
  {
  }

  // ---------------------------------------------------------------- one account per name and credential

  lemma MergedSite(files: map<string, Account>, order: seq<string>, input: Input, idOf: IdOf, now: nat)
    requires IsOrder(order, files)
    ensures Site(Merge(Known(order, files, input), input, idOf, now).origin) == Site(input.origin)
  {
    if Known(order, files, input).Some? {
      KnownIsListed(files, order, input);
    }
  }

  /** A kept file of the site has the name under which listing shows the new account. */
  predicate ClashesWith(files: map<string, Account>, id: string, account: Account, origin: Origin) {
    && id in files && id != account.id && SameSite(files[id], origin)
    && !Duplicates(Listed(files[id]), account, origin) && SameName(Clean(files[id].username), Clean(account.username))
  }

  /** A kept file differs from the new account in its listed name, compared with the name as written. */
  lemma KeptIsApart(files: map<string, Account>, id: string, account: Account, origin: Origin)
    requires FilesOk(files) && id in WithoutDuplicates(files, account, origin) && id != account.id
    requires Site(account.origin) == Site(origin) && !ClashesWith(files, id, account, origin)
    ensures Apart(files[id], account) && Apart(account, files[id])
  {
  }

  /** The new account clashes with a kept one once listing cleans its name again. */
  ghost predicate NameClash(files: map<string, Account>, account: Account, origin: Origin) {
    exists id :: ClashesWith(files, id, account, origin)
  }

  lemma StableNameNeverClashes(files: map<string, Account>, account: Account, origin: Origin)
    requires FilesOk(files) && Clean(account.username) == account.username
    ensures !NameClash(files, account, origin)
  {
  }

  lemma UniqueAfterWriting(files: map<string, Account>, account: Account, origin: Origin)
    requires FilesOk(files) && Unique(files) && Site(account.origin) == Site(origin)
    ensures Unique(WithoutDuplicates(files, account, origin)[account.id := account]) <==> !NameClash(files, account, origin)
  {
    var after := WithoutDuplicates(files, account, origin)[account.id := account];
    if !NameClash(files, account, origin) {
      forall x, y | x in after && y in after && x != y
        ensures Apart(after[x], after[y])
      {
        if x == account.id {
          KeptIsApart(files, y, account, origin);
        } else if y == account.id {
          KeptIsApart(files, x, account, origin);
        }
      }
    } else {
      var id :| ClashesWith(files, id, account, origin);
      assert after[id] == files[id] && !Apart(after[id], after[account.id]);
    }
  }

  /** Cleaning a cut name again shortens it. */
  lemma UnstableShrinks(s: string)
    requires Clean(Clean(s)) != Clean(s)
    ensures |Clean(Clean(s))| < |Clean(s)|
  {
    CleanIsStableIff(s);
    var name := Clean(s);
    TrimTrims(s);
    BlankIsPlain(name);
    TrimLeftShortens(name);
    TrimRightShortens(TrimLeft(name));
  }

  /** A listed account of the site, other than the one saved, that bears `name` and will not go for its credential. */
  predicate BearsName(files: map<string, Account>, id: string, name: string, known: Option<Account>, input: Input, idOf: IdOf) {
    && id in files && id != SavedId(known, input, idOf) && SameSite(files[id], input.origin)
    && SameName(Clean(files[id].username), name)
    && !(files[id].credential.Some? && files[id].credential == SavedCredential(known, input))
  }

  /**
   What a caller can see before a save: the name it will write ends in a space once cut, and the listing
   has another account under the name without that space.
   */
  ghost predicate InputClash(files: map<string, Account>, known: Option<Account>, input: Input, idOf: IdOf) {
    var name := Clean(input.username);
    && !(known.Some? && input.status.Prepared?) && Clean(name) != name
    && exists id :: BearsName(files, id, Clean(name), known, input, idOf)
  }

  lemma ClashIsSeen(files: map<string, Account>, known: Option<Account>, input: Input, idOf: IdOf, now: nat)
    requires FilesOk(files) && (known.Some? ==> Clean(known.value.username) == known.value.username)
    ensures NameClash(files, Merge(known, input, idOf, now), input.origin) <==> InputClash(files, known, input, idOf)
  {
    var account := Merge(known, input, idOf, now);
    var name := Clean(input.username);
    if Clean(account.username) == account.username {
      StableNameNeverClashes(files, account, input.origin);
    } else {
      UnstableShrinks(input.username);
      assert account.username == name && |Lower(Clean(name))| < |Lower(name)|;
      if id :| BearsName(files, id, Clean(name), known, input, idOf) {
        assert ClashesWith(files, id, account, input.origin);
      }
      if id :| ClashesWith(files, id, account, input.origin) {
        assert BearsName(files, id, Clean(name), known, input, idOf);
      }
    }
  }

  /** A save keeps names and credentials unique exactly when the input does not clash with the listing. */
  lemma SaveKeepsUniqueIff(files: map<string, Account>, order: seq<string>, input: Input, idOf: IdOf, now: nat)
    requires IsOrder(order, files) && FilesOk(files) && Unique(files) && Acceptable(input)
    ensures Unique(Save(files, order, input, idOf, now).0) <==> !InputClash(files, Known(order, files, input), input, idOf)
  {
    var known := Known(order, files, input);
    var account := Merge(known, input, idOf, now);
    if known.Some? {
      KnownIsListed(files, order, input);
      ShortNamesAreStable(files[known.value.id].username);
    }
    MergedSite(files, order, input, idOf, now);
    ClashIsSeen(files, known, input, idOf, now);
    UniqueAfterWriting(files, account, input.origin);
    FewerIsUnique(files, account, input.origin);
    if known.Some? && known.value.(updatedAt := now) == account {
      StableNameNeverClashes(files, account, input.origin);
    }
  }

  lemma FewerIsUnique(files: map<string, Account>, account: Account, origin: Origin)
    requires Unique(files)
    ensures Unique(WithoutDuplicates(files, account, origin))
  {
  }

  lemma SaveKeepsUnique(files: map<string, Account>, order: seq<string>, input: Input, idOf: IdOf, now: nat)
    requires IsOrder(order, files) && FilesOk(files) && Unique(files)
    requires Clean(Clean(input.username)) == Clean(input.username)
    ensures Unique(Save(files, order, input, idOf, now).0)
  {
    if Acceptable(input) {
      var known := Known(order, files, input);
      var account := Merge(known, input, idOf, now);
      SaveKeepsUniqueIff(files, order, input, idOf, now);
    }
  }

  datatype Saving = Saving(input: Input, order: seq<string>, now: nat)

  /** Saves one after the other, each listing the files in some order. */
  ghost predicate Saves(files: map<string, Account>, steps: seq<Saving>, after: map<string, Account>, idOf: IdOf)
    decreases |steps|
  {
    if steps == [] then after == files
    else IsOrder(steps[0].order, files) &&
         Saves(Save(files, steps[0].order, steps[0].input, idOf, steps[0].now).0, steps[1..], after, idOf)
  }

  ghost predicate StableName(step: Saving) {
    Clean(Clean(step.input.username)) == Clean(step.input.username)
  }

  /** After any sequence of saves of names that need no second cleaning, names and credentials are unique. */
  lemma {:induction false} SavesKeepUnique(files: map<string, Account>, steps: seq<Saving>, after: map<string, Account>,
                                           idOf: IdOf)
    requires FilesOk(files) && Unique(files) && Saves(files, steps, after, idOf)
    requires forall i :: 0 <= i < |steps| ==> StableName(steps[i])
    ensures FilesOk(after) && Unique(after)
    decreases |steps|
  {
    if steps != [] {
      var step := steps[0];
      assert StableName(step);
      SaveKeepsFiles(files, step.order, step.input, idOf, step.now);
      SaveKeepsUnique(files, step.order, step.input, idOf, step.now);
      SavesKeepUnique(Save(files, step.order, step.input, idOf, step.now).0, steps[1..], after, idOf);
    }
  }

  // ---------------------------------------------------------------- status

  /** The save of a weak status loses or lowers a file of a strong one. */
  ghost predicate Loses(files: map<string, Account>, after: map<string, Account>, id: string) {
    id in files && !Weak(files[id].status) && !(id in after && after[id].status == files[id].status)
  }

  /** The id for an unknown account is taken, by an account that has since been renamed. */
  ghost predicate Overwrites(files: map<string, Account>, known: Option<Account>, account: Account, id: string) {
    known.None? && id == account.id
  }

  /**
   Preparing or reporting an account loses an active, blocked or closed one exactly when the account is
   unknown and its new id is taken by that one, or when that one is removed as a duplicate.
   */
  lemma WeakSaveLosesIff(files: map<string, Account>, order: seq<string>, input: Input, idOf: IdOf, now: nat, id: string)
    requires IsOrder(order, files) && Acceptable(input) && Weak(input.status)
    requires id in files && !Weak(files[id].status)
    ensures var known := Known(order, files, input);
            var account := Merge(known, input, idOf, now);
            Loses(files, Save(files, order, input, idOf, now).0, id) <==>
            Overwrites(files, known, account, id) || Duplicates(Listed(files[id]), account, input.origin)
  {
    var known := Known(order, files, input);
    if known.Some? {
      KnownIsListed(files, order, input);
      KnownKeepsStatus(files, known.value, input, idOf, now, id);
    } else {
      NewTakesId(files, input, idOf, now, id);
    }
  }

  lemma KnownKeepsStatus(files: map<string, Account>, known: Account, input: Input, idOf: IdOf, now: nat, id: string)
    requires Weak(input.status) && id in files && !Weak(files[id].status) && files[id].id == id
    requires known.id in files && known == Listed(files[known.id])
    ensures var account := Merge(Some(known), input, idOf, now);
            var kept := WithoutDuplicates(files, account, input.origin);
            && (Loses(files, kept, id) <==> Duplicates(Listed(files[id]), account, input.origin))
            && (Loses(files, kept[account.id := account], id) <==> Duplicates(Listed(files[id]), account, input.origin))
  {
    var account := Merge(Some(known), input, idOf, now);
    assert account.id == known.id && (id == known.id ==> account.status == files[id].status);
  }

  lemma NewTakesId(files: map<string, Account>, input: Input, idOf: IdOf, now: nat, id: string)
    requires Weak(input.status) && id in files && !Weak(files[id].status) && files[id].id == id
    ensures var account := Merge(None, input, idOf, now);
            Loses(files, WithoutDuplicates(files, account, input.origin)[account.id := account], id) <==>
            id == account.id || Duplicates(Listed(files[id]), account, input.origin)
  {
    assert Weak(Merge(None, input, idOf, now).status);
  }

  ghost predicate SoleExact(files: map<string, Account>, input: Input) {
    forall x, y :: ExactFile(files, x, input) && ExactFile(files, y, input) ==> x == y
  }

  predicate ExactFile(files: map<string, Account>, id: string, input: Input) {
    id in files && SameSite(files[id], input.origin) && Exact(Listed(files[id]), input)
  }

  /** A file a weak save takes for a duplicate, other than that of the known account, matches the input exactly. */
  lemma DuplicateOfNewIsExact(a: Account, input: Input, idOf: IdOf, now: nat)
    requires Weak(input.status) && Duplicates(a, Merge(None, input, idOf, now), input.origin)
    ensures Exact(a, input)
  {
  }

  lemma DuplicateOfKnownIsExact(a: Account, known: Account, input: Input, idOf: IdOf, now: nat)
    requires Weak(input.status) && Duplicates(a, Merge(Some(known), input, idOf, now), input.origin)
    requires !SameName(a.username, known.username) && !(a.credential.Some? && a.credential == known.credential)
    ensures Exact(a, input)
  {
  }

  lemma ApartFromKnown(files: map<string, Account>, order: seq<string>, input: Input, id: string)
    requires IsOrder(order, files) && FilesOk(files) && Unique(files) && Known(order, files, input).Some?
    requires id in files && id != Known(order, files, input).value.id && SameSite(files[id], input.origin)
    ensures var known := Known(order, files, input).value;
            var a := Listed(files[id]);
            !SameName(a.username, known.username) && !(a.credential.Some? && a.credential == known.credential)
  {
    KnownIsListed(files, order, input);
    assert Apart(files[id], files[Known(order, files, input).value.id]);
  }

  /** Among unique files, a weak save that matches at most one account exactly removes none. */
  lemma SoleExactRemovesNone(files: map<string, Account>, order: seq<string>, input: Input, idOf: IdOf, now: nat, id: string)
    requires IsOrder(order, files) && FilesOk(files) && Unique(files) && SoleExact(files, input)
    requires Weak(input.status) && id in files
    ensures !Duplicates(Listed(files[id]), Merge(Known(order, files, input), input, idOf, now), input.origin)
  {
    var known := Known(order, files, input);
    var a := Listed(files[id]);
    if Duplicates(a, Merge(known, input, idOf, now), input.origin) {
      if known.Some? {
        KnownIsListed(files, order, input);
        ApartFromKnown(files, order, input, id);
        DuplicateOfKnownIsExact(a, known.value, input, idOf, now);
        ExactIsKnown(files, order, input, id);
        assert ExactFile(files, id, input) && ExactFile(files, known.value.id, input);
      } else {
        DuplicateOfNewIsExact(a, input, idOf, now);
        ExactIsKnown(files, order, input, id);
      }
      assert false;
    }
  }

  /** So it keeps every active, blocked or closed account, provided the id of an unknown account is free. */
  lemma WeakSaveKeepsStatus(files: map<string, Account>, order: seq<string>, input: Input, idOf: IdOf, now: nat, id: string)
    requires IsOrder(order, files) && FilesOk(files) && Unique(files) && SoleExact(files, input)
    requires Weak(input.status) && Acceptable(input)
    requires Known(order, files, input).None? ==> idOf(input.origin, Lower(Clean(input.username))) !in files
    ensures !Loses(files, Save(files, order, input, idOf, now).0, id)
  {
    if id in files && !Weak(files[id].status) {
      SoleExactRemovesNone(files, order, input, idOf, now, id);
      WeakSaveLosesIff(files, order, input, idOf, now, id);
    }
  }

  // ---------------------------------------------------------------- two runs that lose the invariant

  function Fresh(origin: Origin, username: string, status: Status, credential: Option<string>): Input {
    Input(origin, username, None, None, status, None, credential, None)
  }

  lemma FilterOne(a: Account, keep: Account -> bool)
    ensures Filter([a], keep) == if keep(a) then [a] else []
  {
  }

  lemma IdentifyAmongOne(a: Account, input: Input)
    requires a.email.None? && input.email.None? && input.chat.None?
    ensures Identify([a], input) == if SameSite(a, input.origin) && Exact(a, input) then Some(a) else None
  {
    FilterOne(a, x => SameSite(x, input.origin));
    if SameSite(a, input.origin) {
      FilterOne(a, x => Exact(x, input));
      FilterOne(a, x => Alias(x, input));
      FilterOne(a, x => SameSignup(x, input));
    }
  }

  lemma KnownAmongOne(a: Account, input: Input)
    requires a.email.None? && input.email.None? && input.chat.None?
    ensures IsOrder([a.id], map[a.id := a])
    ensures Known([a.id], map[a.id := a], input) ==
            if SameSite(a, input.origin) && Exact(Listed(a), input) then Some(Listed(a)) else None
  {
    assert List([a.id], map[a.id := a]) == [Listed(a)];
    IdentifyAmongOne(Listed(a), input);
  }

  /** An account that matches the one file neither exactly nor otherwise is written beside it, or over it. */
  lemma SaveBeside(a: Account, input: Input, idOf: IdOf, now: nat)
    requires a.email.None? && input.email.None? && input.chat.None? && Acceptable(input)
    requires SameSite(a, input.origin) && !Exact(Listed(a), input)
    ensures IsOrder([a.id], map[a.id := a])
    ensures var account := Merge(None, input, idOf, now);
            Save(map[a.id := a], [a.id], input, idOf, now).0 == map[a.id := a][account.id := account]
  {
    KnownAmongOne(a, input);
    var account := Merge(None, input, idOf, now);
    assert !Duplicates(Listed(a), account, input.origin);
    assert WithoutDuplicates(map[a.id := a], account, input.origin) == map[a.id := a];
  }

  /** An account that matches the one file exactly, and differs from it, is merged into it. */
  lemma SaveOver(a: Account, input: Input, idOf: IdOf, now: nat)
    requires a.email.None? && input.email.None? && input.chat.None? && Acceptable(input)
    requires SameSite(a, input.origin) && Exact(Listed(a), input)
    requires Merge(Some(Listed(a)), input, idOf, now).username != Clean(a.username)
    ensures Save(map[a.id := a], [a.id], input, idOf, now).0 == map[a.id := Merge(Some(Listed(a)), input, idOf, now)]
  {
    KnownAmongOne(a, input);
    var account := Merge(Some(Listed(a)), input, idOf, now);
    assert account.id == a.id && Listed(a).(updatedAt := now) != account;
    assert WithoutDuplicates(map[a.id := a], account, input.origin) == map[a.id := a];
  }

  lemma FirstSave(input: Input, idOf: IdOf, now: nat)
    requires Acceptable(input)
    ensures var account := Merge(None, input, idOf, now);
            IsOrder([], map[]) && Save(map[], [], input, idOf, now).0 == map[account.id := account]
  {
    assert Known([], map[], input) == None;
    var account := Merge(None, input, idOf, now);
    assert WithoutDuplicates(map[], account, input.origin) == map[];
  }

  lemma CutName(base: string)
    requires |base| == NAME_MAX - 1 && Plain(base) && Trimmed(base)
    ensures Clean(base) == base && Clean(base + " b") == base + " " && Clean(base + " ") == base
  {
    BlankIsPlain(base);
    BlankIsPlain(base + " b");
    BlankIsPlain(base + " ");
    assert (base + " ")[..|base|] == base;
    assert (base + " b")[..NAME_MAX] == base + " ";
  }

  lemma NewAccount(origin: Origin, username: string, status: Status, credential: Option<string>, idOf: IdOf, now: nat)
    ensures Merge(None, Fresh(origin, username, status, credential), idOf, now) ==
            Account(idOf(origin, Lower(Clean(username))), origin, Clean(username), None, UnknownOwner, status,
                    Some(UnknownLogin), credential, None, now)
  {
  }

  lemma TwoSaves(first: Saving, second: Saving, middle: map<string, Account>, after: map<string, Account>, idOf: IdOf)
    requires IsOrder(first.order, map[]) && Save(map[], first.order, first.input, idOf, first.now).0 == middle
    requires IsOrder(second.order, middle) && Save(middle, second.order, second.input, idOf, second.now).0 == after
    ensures Saves(map[], [first, second], after, idOf)
  {
    var steps := [first, second];
    assert steps[1..] == [second] && [second][1..] == [];
    assert Saves(after, [], after, idOf);
    assert Saves(middle, [second], after, idOf);
  }

  lemma CutNameSaves(base: string, origin: Origin, idOf: IdOf) returns (steps: seq<Saving>, a: Account, b: Account)
    requires |base| == NAME_MAX - 1 && Plain(base) && Trimmed(base)
    ensures a.id == idOf(origin, Lower(base)) && a.origin == origin && a.username == base
    ensures b.id == idOf(origin, Lower(base + " ")) && b.origin == origin && b.username == base + " "
    ensures Saves(map[], steps, map[a.id := a][b.id := b], idOf)
  {
    var first, second := Fresh(origin, base, Active, None), Fresh(origin, base + " b", Active, None);
    CutName(base);
    NewAccount(origin, base, Active, None, idOf, 0);
    NewAccount(origin, base + " b", Active, None, idOf, 1);
    a, b := Merge(None, first, idOf, 0), Merge(None, second, idOf, 1);
    FirstSave(first, idOf, 0);
    assert |Lower(base)| != |Lower(base + " ")|;
    SaveBeside(a, second, idOf, 1);
    steps := [Saving(first, [], 0), Saving(second, [a.id], 1)];
    TwoSaves(steps[0], steps[1], map[a.id := a], map[a.id := a][b.id := b], idOf);
  }

  /** A name of 159 characters and the same name with another word: listing shows one name twice. */
  lemma CutNameIsListedTwice(base: string, origin: Origin, idOf: IdOf)
    requires |base| == NAME_MAX - 1 && Plain(base) && Trimmed(base)
    requires idOf(origin, Lower(base)) != idOf(origin, Lower(base + " "))
    ensures exists steps, after :: Saves(map[], steps, after, idOf) && !Unique(after)
  {
    var steps, a, b := CutNameSaves(base, origin, idOf);
    SameNameTwice(map[a.id := a][b.id := b], a, b, base);
  }

  lemma SameNameTwice(files: map<string, Account>, a: Account, b: Account, base: string)
    requires files == map[a.id := a][b.id := b] && a.id != b.id && a.origin == b.origin
    requires |base| == NAME_MAX - 1 && Plain(base) && Trimmed(base) && a.username == base && b.username == base + " "
    ensures !Unique(files)
  {
    CutName(base);
    assert !Apart(files[a.id], files[b.id]);
  }

  /**
   An active account whose name changed keeps the id of its first name: preparing an account under that
   first name writes over it.
   */
  lemma RenamedAccountIsOverwritten(u: string, v: string, credential: string, origin: Origin, idOf: IdOf)
    requires Clean(u) == u != "" && Clean(v) == v != "" && !SameName(u, v)
    ensures var first := Saving(Fresh(origin, u, Active, Some(credential)), [], 0);
            var id := idOf(origin, Lower(u));
            var rename := Saving(Fresh(origin, v, Active, Some(credential)), [id], 1);
            exists files: map<string, Account> ::
              && Saves(map[], [first, rename], files, idOf) && IsOrder([id], files)
              && files[id].username == v && files[id].status == Active
              && Loses(files, Save(files, [id], Fresh(origin, u, Prepared, None), idOf, 2).0, id)
  {
    var first, rename := Fresh(origin, u, Active, Some(credential)), Fresh(origin, v, Active, Some(credential));
    var a := Merge(None, first, idOf, 0);
    NewAccount(origin, u, Active, Some(credential), idOf, 0);
    FirstSave(first, idOf, 0);
    KnownAmongOne(a, rename);
    SaveOver(a, rename, idOf, 1);
    var b := Merge(Some(Listed(a)), rename, idOf, 1);
    assert b == a.(username := v, updatedAt := 1);
    var files := map[b.id := b];
    TwoSaves(Saving(first, [], 0), Saving(rename, [a.id], 1), map[a.id := a], files, idOf);
    PrepareOverwrites(b, u, idOf);
  }

  lemma PrepareOverwrites(b: Account, u: string, idOf: IdOf)
    requires b.email.None? && !Weak(b.status) && b.id == idOf(b.origin, Lower(u))
    requires Clean(u) == u != "" && Clean(b.username) == b.username && !SameName(b.username, u)
    ensures IsOrder([b.id], map[b.id := b])
    ensures Loses(map[b.id := b], Save(map[b.id := b], [b.id], Fresh(b.origin, u, Prepared, None), idOf, 2).0, b.id)
  {
    var again := Fresh(b.origin, u, Prepared, None);
    NewAccount(b.origin, u, Prepared, None, idOf, 2);
    SaveBeside(b, again, idOf, 2);
  }
}
