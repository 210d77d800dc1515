/**
 What a save records of its input: the status, field by field the rest, and over whole runs the status of
 the last save that saw an account active, blocked or closed.
 */
module AccountStatus {
  import opened Common
  import opened AccountDirectory

  /** The file of the account a save is about, if there is one. */
  function KnownFile(files: map<string, Account>, order: seq<string>, input: Input): Option<Account>
    requires IsOrder(order, files)
  {
    var known := Known(order, files, input);
    if known.Some? && known.value.id in files then Some(files[known.value.id]) else None
  }

  lemma KnownFileIs(files: map<string, Account>, order: seq<string>, input: Input)
    requires IsOrder(order, files)
    ensures var known := Known(order, files, input);
            && (known.Some? <==> KnownFile(files, order, input).Some?)
            && (known.Some? ==> known.value == Listed(KnownFile(files, order, input).value))
  {
    if Known(order, files, input).Some? {
      KnownIsListed(files, order, input);
    }
  }

  /** The account returned is the one on disk under its id, as listing shows it or as written. */
  lemma SavedIsStored(files: map<string, Account>, order: seq<string>, input: Input, idOf: IdOf, now: nat)
    requires IsOrder(order, files) && Acceptable(input)
    ensures var (after, saved) := Save(files, order, input, idOf, now);
            && saved.Some? && saved.value.id in after
            && (saved.value == after[saved.value.id] || saved.value == Listed(after[saved.value.id]))
            && saved.value.id == match KnownFile(files, order, input)
                                 case Some(a) => a.id
                                 case None => idOf(input.origin, Lower(Clean(input.username)))
  {
    KnownFileIs(files, order, input);
  }

  predicate Strong(status: Status) {
    status.Active? || status.Blocked? || status.Closed?
  }

  /**
   Active, blocked and closed are recorded whatever was known; reported replaces what is not one of
   these; prepared is recorded of an unknown account only.
   */
  lemma StatusIsRecorded(files: map<string, Account>, order: seq<string>, input: Input, idOf: IdOf, now: nat)
    requires IsOrder(order, files) && Acceptable(input)
    ensures var (after, saved) := Save(files, order, input, idOf, now);
            var known := KnownFile(files, order, input);
            && saved.Some? && saved.value.id in after && after[saved.value.id].status == saved.value.status
            && (Strong(input.status) ==> saved.value.status == input.status)
            && (input.status.Reported? && (known.None? || !Strong(known.value.status)) ==> saved.value.status.Reported?)
            && (input.status.Prepared? && known.None? ==> saved.value.status.Prepared?)
            && (!Strong(input.status) && known.Some? && Strong(known.value.status) ==>
                  saved.value.status == known.value.status)
            && (input.status.Prepared? && known.Some? ==> saved.value.status == known.value.status)
  {
    KnownFileIs(files, order, input);
    SavedIsStored(files, order, input, idOf, now);
  }

  /** What is given is recorded, and what is not given is kept. */
  predicate Carried<T(==)>(given: Option<T>, kept: Option<T>, saved: Option<T>) {
    if given.Some? then saved == given else saved == kept
  }

  /**
   The other fields: email, chat and, for a login that may use a password, the credential are carried; so
   is the owner, "unknown" counting as not given; the name is the cleaned one given unless an account is
   only prepared again, and the site moves to the one given unless an account with a credential is reported.
   */
  lemma FieldsAreRecorded(files: map<string, Account>, order: seq<string>, input: Input, idOf: IdOf, now: nat)
    requires IsOrder(order, files) && Acceptable(input)
    ensures var saved := Save(files, order, input, idOf, now).1.value;
            var known := KnownFile(files, order, input);
            && Carried(input.email, if known.Some? then known.value.email else None, saved.email)
            && Carried(input.chat, if known.Some? then known.value.chat else None, saved.chat)
            && saved.login.Some?
            && (input.login.Some? ==> saved.login == input.login)
            && (input.login.None? && known.Some? && known.value.login.Some? ==> saved.login == known.value.login)
            && (input.login.None? && (known.None? || known.value.login.None?) ==> saved.login == Some(UnknownLogin))
    ensures var saved := Save(files, order, input, idOf, now).1.value;
            var known := KnownFile(files, order, input);
            && (saved.login in {Some(EmailCode), Some(MagicLink), Some(OAuth)} ==> saved.credential == None)
            && (saved.login in {Some(Password), Some(UnknownLogin)} ==>
                  Carried(input.credential, if known.Some? then known.value.credential else None, saved.credential))
            && (input.owner in {Some(Assistant), Some(User)} ==> Some(saved.owner) == input.owner)
            && (input.owner !in {Some(Assistant), Some(User)} ==>
                  saved.owner == if known.Some? then known.value.owner else UnknownOwner)
    ensures var saved := Save(files, order, input, idOf, now).1.value;
            var known := KnownFile(files, order, input);
            && saved.username == (if known.Some? && input.status.Prepared? then Clean(known.value.username)
                                  else Clean(input.username))
            && saved.origin == (if known.Some? && input.status.Reported? && known.value.credential.Some?
                                then known.value.origin else input.origin)
  {
    KnownFileIs(files, order, input);
    var account := Merge(Known(order, files, input), input, idOf, now);
    assert Save(files, order, input, idOf, now).1.value.(updatedAt := now) == account;
  }

  /** The account is dated by the save, unless the save says nothing new of it. */
  lemma DateIsRecorded(files: map<string, Account>, order: seq<string>, input: Input, idOf: IdOf, now: nat)
    requires IsOrder(order, files) && Acceptable(input)
    ensures var saved := Save(files, order, input, idOf, now).1.value;
            var known := Known(order, files, input);
            var merged := Merge(known, input, idOf, now);
            && saved.(updatedAt := now) == merged
            && saved.updatedAt == (if known.Some? && merged.(updatedAt := known.value.updatedAt) == known.value
                                   then known.value.updatedAt else now)
  {
  }

  // ---------------------------------------------------------------- over whole runs

  /** Each save leaves `id` alone, or is a weak one of the account that is stored under it. */
  ghost predicate Spare(files: map<string, Account>, steps: seq<Saving>, id: string, idOf: IdOf)
    decreases |steps|
  {
    steps != [] ==>
      var step := steps[0];
      && IsOrder(step.order, files)
      && var (next, saved) := Save(files, step.order, step.input, idOf, step.now);
         && id in next
         && (saved.Some? && saved.value.id == id ==>
               !Strong(step.input.status) && KnownFile(files, step.order, step.input).Some?)
         && Spare(next, steps[1..], id, idOf)
  }

  lemma SpareStep(files: map<string, Account>, step: Saving, id: string, idOf: IdOf)
    requires IsOrder(step.order, files) && id in files && Strong(files[id].status)
    requires var (next, saved) := Save(files, step.order, step.input, idOf, step.now);
             && id in next
             && (saved.Some? && saved.value.id == id ==>
                   !Strong(step.input.status) && KnownFile(files, step.order, step.input).Some?)
    ensures Save(files, step.order, step.input, idOf, step.now).0[id].status == files[id].status
  {
    if Acceptable(step.input) {
      StatusIsRecorded(files, step.order, step.input, idOf, step.now);
      SavedIsStored(files, step.order, step.input, idOf, step.now);
      KnownFileIs(files, step.order, step.input);
      assert files[id].id == id;
    }
  }

  lemma {:induction false} SparedKeepsStatus(files: map<string, Account>, steps: seq<Saving>, after: map<string, Account>,
                                             id: string, idOf: IdOf)
    requires id in files && Strong(files[id].status)
    requires Saves(files, steps, after, idOf) && Spare(files, steps, id, idOf)
    ensures id in after && after[id].status == files[id].status
    decreases |steps|
  {
    if steps != [] {
      var step := steps[0];
      SpareStep(files, step, id, idOf);
      SparedKeepsStatus(Save(files, step.order, step.input, idOf, step.now).0, steps[1..], after, id, idOf);
    }
  }

  /** The last save that saw an account active, blocked or closed decides its status, whatever is prepared or reported later. */
  lemma LastStrongSaveDecides(files: map<string, Account>, first: Saving, later: seq<Saving>, after: map<string, Account>,
                              idOf: IdOf)
    requires IsOrder(first.order, files) && Acceptable(first.input) && Strong(first.input.status)
    requires var (next, saved) := Save(files, first.order, first.input, idOf, first.now);
             && saved.Some? && Spare(next, later, saved.value.id, idOf) && Saves(next, later, after, idOf)
    ensures var saved := Save(files, first.order, first.input, idOf, first.now).1.value;
            saved.id in after && after[saved.id].status == first.input.status
  {
    StatusIsRecorded(files, first.order, first.input, idOf, first.now);
    var (next, saved) := Save(files, first.order, first.input, idOf, first.now);
    SparedKeepsStatus(next, later, after, saved.value.id, idOf);
  }
}
