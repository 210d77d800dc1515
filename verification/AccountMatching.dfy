/**
 How a save finds the account it is about: what counts as the same name, and which listed account is
 taken when several could be meant.
 */
module AccountMatching {
  import opened Common
  import opened AccountDirectory

  // ---------------------------------------------------------------- names

  /** The small form of a capital letter, the same place in the alphabet. */
  predicate IsSmallOf(c: char, small: char) {
    'A' <= c <= 'Z' && 'a' <= small <= 'z' && small as int - 'a' as int == c as int - 'A' as int
  }

  /** Lower case changes the letters of the alphabet to their small forms and no other character. */
  lemma {:induction false} LowerIs(s: string, i: nat)
    requires i < |s|
    ensures if 'A' <= s[i] <= 'Z' then IsSmallOf(s[i], Lower(s)[i]) else Lower(s)[i] == s[i]
  {
    if i > 0 {
      LowerIs(s[1..], i - 1);
    }
  }

  /** The local part of an address ends before its first at-sign; without one it is the whole. */
  lemma {:induction false} LocalPartIs(email: string)
    ensures '@' !in LocalPart(email) && LocalPart(email) <= email
    ensures '@' in email ==> |LocalPart(email)| < |email| && email[|LocalPart(email)|] == '@'
    ensures '@' !in email ==> LocalPart(email) == email
  {
    if email != "" && email[0] != '@' {
      LocalPartIs(email[1..]);
      assert email == [email[0]] + email[1..];
    }
  }

  /** Characters that cleaning drops at either end of a name. */
  predicate IsEdge(c: char) {
    c <= ' ' || c == '\U{7f}'
  }

  ghost predicate AllEdge(s: string) {
    forall i :: 0 <= i < |s| ==> IsEdge(s[i])
  }

  /** A cleaned name, cut to length: what is left between the edges, its control characters turned to spaces. */
  ghost predicate CleanedFrom(name: string, s: string, i: nat, j: nat) {
    && i <= j <= |s| && AllEdge(s[..i]) && AllEdge(s[j..])
    && (i < j ==> !IsEdge(s[i]) && !IsEdge(s[j - 1]))
    && |name| == (if j - i <= 160 then j - i else 160)
    && forall k :: 0 <= k < |name| ==> name[k] == if s[i + k] < ' ' || s[i + k] == '\U{7f}' then ' ' else s[i + k]
  }

  lemma {:induction false} TrimLeftIs(s: string) returns (i: nat)
    ensures i <= |s| && TrimLeft(s) == s[i..] && (forall k :: 0 <= k < i ==> s[k] == ' ') && (i < |s| ==> s[i] != ' ')
  {
    i := 0;
    if s != "" && s[0] == ' ' {
      var j := TrimLeftIs(s[1..]);
      i := j + 1;
      forall k | 0 <= k < i
        ensures s[k] == ' '
      {
        assert k > 0 ==> s[1..][k - 1] == s[k];
      }
    }
  }

  lemma {:induction false} TrimRightIs(s: string) returns (j: nat)
    ensures j <= |s| && TrimRight(s) == s[..j] && (forall k :: j <= k < |s| ==> s[k] == ' ') && (j > 0 ==> s[j - 1] != ' ')
  {
    j := |s|;
    if s != "" && s[|s| - 1] == ' ' {
      j := TrimRightIs(s[..|s| - 1]);
    }
  }

  lemma CleanIs(s: string) returns (i: nat, j: nat)
    ensures CleanedFrom(Clean(s), s, i, j)
  {
    var blank := Blank(s);
    i := TrimLeftIs(blank);
    var width := TrimRightIs(blank[i..]);
    j := i + width;
    assert TrimRight(TrimLeft(blank)) == blank[i..j];
    forall k | 0 <= k < i
      ensures IsEdge(s[k])
    {
      assert blank[k] == ' ';
    }
    forall k | j <= k < |s|
      ensures IsEdge(s[k])
    {
      assert blank[i..][k - i] == ' ';
    }
  }

  // ---------------------------------------------------------------- who is meant

  /** A name of nothing but edges is refused, and no other is; a refused save leaves the files alone. */
  lemma RefusedIff(files: map<string, Account>, order: seq<string>, input: Input, idOf: IdOf, now: nat)
    requires forall id :: id in order ==> id in files
    ensures Save(files, order, input, idOf, now).1.None? <==> AllEdge(input.username)
    ensures AllEdge(input.username) ==> Save(files, order, input, idOf, now).0 == files
  {
    var i, j := CleanIs(input.username);
    assert i < j ==> !IsEdge(input.username[i]) && Clean(input.username) != "";
    if i == j {
      assert input.username == input.username[..i] + input.username[j..];
    }
  }

  /** A leading "www." does not make another site; nothing else is overlooked. */
  lemma SiteIs(scheme: string, host: string)
    ensures Site(Origin(scheme, "www." + host)) == Origin(scheme, host)
    ensures !("www." <= host) ==> Site(Origin(scheme, host)) == Origin(scheme, host)
  {
    assert ("www." + host)[4..] == host;
  }

  /** The listed account bears the name given, as user name or as address, or the credential given. */
  predicate IsMeant(a: Account, input: Input) {
    && Site(a.origin) == Site(input.origin)
    && (|| Lower(a.username) == Lower(Clean(input.username))
        || (a.email.Some? && Lower(a.email.value) == Lower(Clean(input.username)))
        || (input.credential.Some? && a.credential == input.credential))
  }

  /** The name of one is the local part of the address of the other. */
  predicate IsAlias(a: Account, input: Input) {
    && Site(a.origin) == Site(input.origin)
    && (|| (input.email.Some? && Lower(LocalPart(input.email.value)) == Lower(a.username))
        || (a.email.Some? && Lower(LocalPart(a.email.value)) == Lower(Clean(input.username))))
  }

  /** A signup prepared in the same chat and not yet seen through. */
  predicate IsSignup(a: Account, input: Input) {
    && Site(a.origin) == Site(input.origin)
    && a.status == Prepared && a.credential != None && a.chat == input.chat && a.chat != None && a.chat != Some("")
  }

  ghost predicate First(list: seq<Account>, holds: Account -> bool, i: nat) {
    i < |list| && holds(list[i]) && forall j :: 0 <= j < i ==> !holds(list[j])
  }

  ghost predicate Sole(list: seq<Account>, holds: Account -> bool, i: nat) {
    i < |list| && holds(list[i]) && forall j :: 0 <= j < |list| && j != i ==> !holds(list[j])
  }

  ghost predicate NoneOf(list: seq<Account>, holds: Account -> bool) {
    forall j :: 0 <= j < |list| ==> !holds(list[j])
  }

  ghost predicate NoSole(list: seq<Account>, holds: Account -> bool) {
    forall i: nat :: !Sole(list, holds, i)
  }

  lemma {:induction false} FilterNone(list: seq<Account>, keep: Account -> bool)
    ensures NoneOf(list, keep) <==> Filter(list, keep) == []
  {
    if list != [] {
      FilterNone(list[1..], keep);
      assert forall j :: 0 < j < |list| ==> list[j] == list[1..][j - 1];
    }
  }

  lemma {:induction false} FilterFirst(list: seq<Account>, keep: Account -> bool, i: nat)
    requires First(list, keep, i)
    ensures Filter(list, keep) != [] && Filter(list, keep)[0] == list[i]
  {
    if i > 0 {
      assert forall j :: 0 < j < |list| ==> list[j] == list[1..][j - 1];
      FilterFirst(list[1..], keep, i - 1);
    }
  }

  lemma {:induction false} FilterSole(list: seq<Account>, keep: Account -> bool, i: nat)
    requires Sole(list, keep, i)
    ensures Filter(list, keep) == [list[i]]
  {
    assert forall j :: 0 < j < |list| ==> list[j] == list[1..][j - 1];
    if i == 0 {
      FilterNone(list[1..], keep);
    } else {
      FilterSole(list[1..], keep, i - 1);
    }
  }

  /** A filter that leaves one account found one place. */
  lemma {:induction false} OneIsSole(list: seq<Account>, keep: Account -> bool) returns (i: nat)
    requires |Filter(list, keep)| == 1
    ensures Sole(list, keep, i)
  {
    i := 0;
    assert forall j :: 0 < j < |list| ==> list[j] == list[1..][j - 1];
    if keep(list[0]) {
      FilterNone(list[1..], keep);
    } else {
      var k := OneIsSole(list[1..], keep);
      i := k + 1;
    }
  }

  lemma {:induction false} FilterTwice(list: seq<Account>, a: Account -> bool, b: Account -> bool, both: Account -> bool)
    requires forall x :: both(x) <==> a(x) && b(x)
    ensures Filter(Filter(list, a), b) == Filter(list, both)
  {
    if list != [] {
      FilterTwice(list[1..], a, b, both);
      if a(list[0]) {
        assert ([list[0]] + Filter(list[1..], a))[1..] == Filter(list[1..], a);
      }
    }
  }

  function Meant(input: Input): Account -> bool {
    a => IsMeant(a, input)
  }

  function Aliases(input: Input): Account -> bool {
    a => IsAlias(a, input)
  }

  function Signups(input: Input): Account -> bool {
    a => IsSignup(a, input)
  }

  /** What identification works with: the three kinds of candidates of the site, in list order. */
  lemma Candidates(list: seq<Account>, input: Input)
    ensures var exact := Filter(list, a => IsMeant(a, input));
            var aliases := Filter(list, a => IsAlias(a, input));
            var signups := Filter(list, a => IsSignup(a, input));
            Identify(list, input) ==
            if exact != [] then Some(exact[0])
            else if |aliases| == 1 then Some(aliases[0])
            else if |signups| == 1 then Some(signups[0])
            else None
  {
    FilterTwice(list, a => SameSite(a, input.origin), a => Exact(a, input), Meant(input));
    FilterTwice(list, a => SameSite(a, input.origin), a => Alias(a, input), Aliases(input));
    FilterTwice(list, a => SameSite(a, input.origin), a => SameSignup(a, input), Signups(input));
  }

  /** The account meant is the first listed one with the name or the credential. */
  lemma FirstMeantIsTaken(list: seq<Account>, input: Input, i: nat)
    requires First(list, Meant(input), i)
    ensures Identify(list, input) == Some(list[i])
  {
    Candidates(list, input);
    FilterFirst(list, Meant(input), i);
  }

  /** Failing that it is the only alias. */
  lemma SoleAliasIsTaken(list: seq<Account>, input: Input, i: nat)
    requires NoneOf(list, Meant(input)) && Sole(list, Aliases(input), i)
    ensures Identify(list, input) == Some(list[i])
  {
    Candidates(list, input);
    FilterNone(list, Meant(input));
    FilterSole(list, Aliases(input), i);
  }

  /** Failing a single alias it is the only signup of the chat. */
  lemma SoleSignupIsTaken(list: seq<Account>, input: Input, i: nat)
    requires NoneOf(list, Meant(input)) && NoSole(list, Aliases(input)) && Sole(list, Signups(input), i)
    ensures Identify(list, input) == Some(list[i])
  {
    Candidates(list, input);
    FilterNone(list, Meant(input));
    if |Filter(list, Aliases(input))| == 1 {
      var k := OneIsSole(list, Aliases(input));
    }
    FilterSole(list, Signups(input), i);
  }

  /** Otherwise it is nobody, and the save makes a new account. */
  lemma NobodyIsTaken(list: seq<Account>, input: Input)
    requires NoneOf(list, Meant(input)) && NoSole(list, Aliases(input)) && NoSole(list, Signups(input))
    ensures Identify(list, input) == None
  {
    Candidates(list, input);
    FilterNone(list, Meant(input));
    if |Filter(list, Aliases(input))| == 1 {
      var k := OneIsSole(list, Aliases(input));
    } else if |Filter(list, Signups(input))| == 1 {
      var k := OneIsSole(list, Signups(input));
    }
  }
}
