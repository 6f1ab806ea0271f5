/**
  The invitation manager of the server (server/src/controllers/admin.controller.js). The
  user collection is a map from document id to account; ids come from a counter, as
  fresh ObjectIds would. Random token bytes are a parameter (`plaintext`), SHA-256 is the
  store's `hash` function, and the clock is `now` in milliseconds. Mails that the email
  service would send are appended to `outbox`.
*/
module Invitations {
  import opened Wrappers

  type Id = nat

  /** 30 * 24 * 60 * 60 * 1000 milliseconds. */
  const InviteLifetime: int := 2592000000
  const ResearcherRole: string := "researcher"
  const AlreadyRegistered: string := "Email already registered"
  const InvitationNotFound: string := "Invitation not found"

  /** The optional profile fields set when an administrator creates a researcher directly. */
  datatype Profile = Profile(name: string, faculty: string, bio: string, title: string, picture: Option<string>)

  /** A user document. `inviteToken` holds only the hash of the emailed token. */
  datatype Account = Account(
    email: string,
    role: string,
    isActive: bool,
    password: Option<string>,
    profile: Option<Profile>,
    inviteToken: Option<string>,
    inviteTokenExpires: Option<int>,
    createdAt: int)

  /** What the email service is asked to send. */
  datatype Mail = InvitationMail(to: string, token: string) | CredentialsMail(to: string, password: string)

  /** The errors the controller throws (400 and 404). */
  datatype AdminError = BadRequest(message: string) | NotFound(message: string)

  datatype Status = Pending | Expired

  /** One entry of the invitation list (dates as milliseconds rather than ISO day strings). */
  datatype InvitationView = InvitationView(email: string, status: Status, created: int, expires: int)

  /** The `data` of the reply to addResearcherProfile. */
  datatype ProfileSummary = ProfileSummary(id: Id, email: string, name: string, faculty: string, title: string)

  /** `User.findOne({ email })` finds a document: any account, active or not. */
  predicate EmailTaken(accounts: map<Id, Account>, email: string) {
    exists id :: id in accounts && accounts[id].email == email
  }

  /** No two accounts share an email. */
  ghost predicate UniqueEmails(accounts: map<Id, Account>) {
    forall a, b :: a in accounts && b in accounts && accounts[a].email == accounts[b].email ==> a == b
  }

  /** The document `inviteResearcher` creates. */
  function Invitee(email: string, hashedToken: string, now: int): Account {
    Account(email, ResearcherRole, false, None, None, Some(hashedToken), Some(now + InviteLifetime), now)
  }

  /** The document `addResearcherProfile` creates. */
  function ManualResearcher(email: string, profile: Profile, password: string, now: int): Account {
    Account(email, ResearcherRole, true, Some(password), Some(profile), None, None, now)
  }

  /** The document after `resendInvitation` rewrote its token and expiry. */
  function Reissued(a: Account, hashedToken: string, now: int): Account {
    a.(inviteToken := Some(hashedToken), inviteTokenExpires := Some(now + InviteLifetime))
  }

  /** The query of getInvitations: a researcher with both invite fields present, active or not. */
  predicate Listed(a: Account) {
    a.role == ResearcherRole && a.inviteToken.Some? && a.inviteTokenExpires.Some?
  }

  /** The guard of resendInvitation passes: a researcher whose invite token is truthy. */
  predicate Resendable(a: Account) {
    a.role == ResearcherRole && a.inviteToken.Some? && a.inviteToken.value != ""
  }

  /** Status at read time: expired only strictly after the expiry instant. */
  function StatusAt(expires: int, now: int): (s: Status)
    ensures s == Expired <==> expires < now
  {
    if expires < now then Expired else Pending
  }

  /** getInvitations: one entry per listed account, keyed by its id. */
  function Invitations(accounts: map<Id, Account>, now: int): (r: map<Id, InvitationView>)
    ensures forall id :: id in r <==> id in accounts && Listed(accounts[id])
    ensures forall id :: id in accounts && Listed(accounts[id]) ==>
              && id in r
              && r[id].email == accounts[id].email
              && r[id].created == accounts[id].createdAt
              && r[id].expires == accounts[id].inviteTokenExpires.value
              && (r[id].status == Pending <==> now <= accounts[id].inviteTokenExpires.value)
  {
    map id | id in accounts && Listed(accounts[id]) ::
      InvitationView(accounts[id].email, StatusAt(accounts[id].inviteTokenExpires.value, now),
                     accounts[id].createdAt, accounts[id].inviteTokenExpires.value)
  }

  /** The `User` collection and the mail the controller hands to the email service. */
  class UserStore {
    var accounts: map<Id, Account>
    var nextId: Id
    var outbox: seq<Mail>
    const hash: string -> string

    /** Ids are below the counter, and emails are unique. */
    ghost predicate Valid()
      reads this
    {
      (forall id :: id in accounts ==> id < nextId) && UniqueEmails(accounts)
    }

    constructor (hash: string -> string)
      ensures Valid() && this.hash == hash && accounts == map[] && outbox == []
    {
      this.hash := hash;
      accounts := map[];
      nextId := 0;
      outbox := [];
    }

    /** The lookup `User.findOne({ email })` performs. */
    method FindByEmail(email: string) returns (found: bool)
      ensures found <==> EmailTaken(accounts, email)
    {
      found := exists id :: id in accounts && accounts[id].email == email;
    }

    /**
      inviteResearcher: an email already on any account is refused and nothing changes;
      otherwise exactly one inactive researcher is added holding only the token's hash and an
      expiry 30 days out, and the plaintext token is mailed.
    */
    method InviteResearcher(email: string, plaintext: string, now: int) returns (r: Result<Id, AdminError>)
      requires Valid()
      modifies this
      ensures Valid()
      ensures old(EmailTaken(accounts, email)) ==>
                && r == Failure(BadRequest(AlreadyRegistered))
                && accounts == old(accounts) && outbox == old(outbox)
      ensures !old(EmailTaken(accounts, email)) ==>
                && r.Success? && r.value !in old(accounts)
                && accounts == old(accounts)[r.value := Invitee(email, hash(plaintext), now)]
                && outbox == old(outbox) + [InvitationMail(email, plaintext)]
    {
      var taken := FindByEmail(email);
      if taken {
        return Failure(BadRequest(AlreadyRegistered));
      }
      var id := nextId;
      InsertKeepsUnique(accounts, id, Invitee(email, hash(plaintext), now));
      accounts := accounts[id := Invitee(email, hash(plaintext), now)];
      nextId := nextId + 1;
      outbox := outbox + [InvitationMail(email, plaintext)];
      r := Success(id);
    }

    /**
      addResearcherProfile: the same duplicate check; otherwise one active researcher with the
      profile and the generated password is added and the credentials are mailed.
    */
    method AddResearcherProfile(email: string, profile: Profile, generatedPassword: string, now: int)
      returns (r: Result<ProfileSummary, AdminError>)
      requires Valid()
      modifies this
      ensures Valid()
      ensures old(EmailTaken(accounts, email)) ==>
                && r == Failure(BadRequest(AlreadyRegistered))
                && accounts == old(accounts) && outbox == old(outbox)
      ensures !old(EmailTaken(accounts, email)) ==>
                && r.Success? && r.value.id !in old(accounts)
                && r.value == ProfileSummary(r.value.id, email, profile.name, profile.faculty, profile.title)
                && accounts == old(accounts)[r.value.id := ManualResearcher(email, profile, generatedPassword, now)]
                && outbox == old(outbox) + [CredentialsMail(email, generatedPassword)]
    {
      var taken := FindByEmail(email);
      if taken {
        return Failure(BadRequest(AlreadyRegistered));
      }
      var id := nextId;
      InsertKeepsUnique(accounts, id, ManualResearcher(email, profile, generatedPassword, now));
      accounts := accounts[id := ManualResearcher(email, profile, generatedPassword, now)];
      nextId := nextId + 1;
      outbox := outbox + [CredentialsMail(email, generatedPassword)];
      r := Success(ProfileSummary(id, email, profile.name, profile.faculty, profile.title));
    }

    /**
      resendInvitation: NotFound, and no change, unless the id is a researcher with a truthy
      invite token; otherwise the token hash and expiry are overwritten in place and the new
      plaintext is mailed. isActive is not consulted.
    */
    method ResendInvitation(id: Id, plaintext: string, now: int) returns (r: Result<(), AdminError>)
      requires Valid()
      modifies this
      ensures Valid()
      ensures !(id in old(accounts) && Resendable(old(accounts)[id])) ==>
                && r == Failure(NotFound(InvitationNotFound))
                && accounts == old(accounts) && outbox == old(outbox)
      ensures id in old(accounts) && Resendable(old(accounts)[id]) ==>
                && r.Success?
                && accounts == old(accounts)[id := Reissued(old(accounts)[id], hash(plaintext), now)]
                && outbox == old(outbox) + [InvitationMail(old(accounts)[id].email, plaintext)]
    {
      if id !in accounts || !Resendable(accounts[id]) {
        return Failure(NotFound(InvitationNotFound));
      }
      var user := accounts[id];
      ReplaceKeepsUnique(accounts, id, Reissued(user, hash(plaintext), now));
      accounts := accounts[id := Reissued(user, hash(plaintext), now)];
      outbox := outbox + [InvitationMail(user.email, plaintext)];
      r := Success(());
    }

    /** deleteInvitation: NotFound for an unknown id; otherwise that document, of any role or state, is removed. */
    method DeleteInvitation(id: Id) returns (r: Result<(), AdminError>)
      requires Valid()
      modifies this
      ensures Valid() && outbox == old(outbox)
      ensures id !in old(accounts) ==> r == Failure(NotFound(InvitationNotFound)) && accounts == old(accounts)
      ensures id in old(accounts) ==> r.Success? && accounts == old(accounts) - {id}
    {
      if id !in accounts {
        return Failure(NotFound(InvitationNotFound));
      }
      accounts := accounts - {id};
      r := Success(());
    }
  }

  /** Adding an account under a fresh id with an email nobody has keeps emails unique. */
  lemma InsertKeepsUnique(accounts: map<Id, Account>, id: Id, a: Account)
    requires UniqueEmails(accounts) && id !in accounts && !EmailTaken(accounts, a.email)
    ensures UniqueEmails(accounts[id := a])
  {
  }

  /** Rewriting an account without changing its email keeps emails unique. */
  lemma ReplaceKeepsUnique(accounts: map<Id, Account>, id: Id, a: Account)
    requires UniqueEmails(accounts) && id in accounts && a.email == accounts[id].email
    ensures UniqueEmails(accounts[id := a])
  {
  }

  /** `hash` never maps two plaintexts to one digest (assumed of SHA-256). */
  ghost predicate Injective(hash: string -> string) {
    forall a, b :: hash(a) == hash(b) ==> a == b
  }

  /**
    A fresh invitation is listed, pending up to and including its expiry instant and expired
    after it; the entries of all other accounts are unchanged.
  */
  lemma InvitationListedPending(accounts: map<Id, Account>, id: Id, email: string, hashed: string,
                                created: int, now: int)
    requires id !in accounts
    ensures var after := Invitations(accounts[id := Invitee(email, hashed, created)], now);
            && id in after
            && after[id] == InvitationView(email, StatusAt(created + InviteLifetime, now), created, created + InviteLifetime)
            && (after[id].status == Pending <==> now <= created + InviteLifetime)
            && (forall other :: other != id ==>
                  (other in after <==> other in Invitations(accounts, now))
                  && (other in after ==> after[other] == Invitations(accounts, now)[other]))
  {
  }

  /**
    Resending keeps email, role and activity, stores only the new token's hash, and (with an
    injective hash and a different plaintext) the old plaintext's hash no longer matches.
  */
  lemma ReissueInvalidatesOldToken(hash: string -> string, a: Account, oldPlain: string, newPlain: string, now: int)
    requires Injective(hash) && oldPlain != newPlain
    ensures var b := Reissued(a, hash(newPlain), now);
            && b.email == a.email && b.role == a.role && b.isActive == a.isActive
            && b.inviteToken == Some(hash(newPlain))
            && b.inviteToken != Some(hash(oldPlain))
            && b.inviteTokenExpires == Some(now + InviteLifetime)
  {
  }

  /**
    The invitation lifecycle end to end: invite at t0, pending at t0; expired 31 days later;
    resent then, pending again with an expiry 30 days out, and the first plaintext rejected.
  */
  lemma {:induction false} InviteExpireResend(hash: string -> string, accounts: map<Id, Account>, id: Id,
                                              email: string, p: string, q: string, t0: int)
    requires Injective(hash) && p != q && id !in accounts
    ensures var invited := accounts[id := Invitee(email, hash(p), t0)];
            var t1 := t0 + 31 * 24 * 60 * 60 * 1000;
            var resent := invited[id := Reissued(invited[id], hash(q), t1)];
            && Resendable(invited[id]) == (hash(p) != "")
            && Invitations(invited, t0)[id].status == Pending
            && Invitations(invited, t1)[id].status == Expired
            && Invitations(resent, t1)[id] == InvitationView(email, Pending, t0, t1 + InviteLifetime)
            && resent[id].inviteToken != Some(hash(p))
  {
    var invited := accounts[id := Invitee(email, hash(p), t0)];
    var t1 := t0 + 31 * 24 * 60 * 60 * 1000;
    InvitationListedPending(accounts, id, email, hash(p), t0, t0);
    InvitationListedPending(accounts, id, email, hash(p), t0, t1);
    ReissueInvalidatesOldToken(hash, invited[id], p, q, t1);
    var resent := invited[id := Reissued(invited[id], hash(q), t1)];
    assert Listed(resent[id]);
  }
}
