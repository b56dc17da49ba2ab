/**
  Bots, their owners and their immutable revisions (internal/platform/service/bot_ownership.go).
  Registry is the abstract state; the store's methods are proved against functions on it.
*/
module BotOwnership {
  import opened Identifiers
  import opened RunTypes

  datatype Lifecycle = Active | Retired

  datatype Validation = Unstated | Ready | NotReady

  datatype Bot = Bot(botID: Id, owner: Id, scopeID: Id, name: Id, normalizedName: Id, lifecycle: Lifecycle, revisionID: Id)

  datatype Revision = Revision(revisionID: Id, botID: Id, artifactID: Id, validation: Validation, createdAt: int)

  datatype Request = Request(
    owner: Id, scopeID: Id, quota: int, botID: Id, botName: Id, artifactID: Id, validation: Validation)

  datatype Registry = Registry(bots: map<Id, Bot>, revisions: map<Id, Revision>)

  const EMPTY := Registry(map[], map[])

  // What the surroundings supply: the time, fresh ids, and how names are normalized.
  datatype Supply = Supply(now: int, newBotID: Id, newRevisionID: Id)

  // ----- Creating and revising -----

  predicate ActiveFor(b: Bot, owner: Id, scopeID: Id) { b.owner == owner && b.scopeID == scopeID && b.lifecycle.Active? }

  function ActiveBots(bots: map<Id, Bot>, owner: Id, scopeID: Id): set<Id> {
    set id | id in bots && ActiveFor(bots[id], owner, scopeID)
  }

  predicate NameTaken(bots: map<Id, Bot>, owner: Id, scopeID: Id, name: Id) {
    exists id | id in bots :: ActiveFor(bots[id], owner, scopeID) && bots[id].normalizedName == name
  }

  // The bot to revise, or a new one, before it gets its revision.
  function BotFor(reg: Registry, req: Request, supply: Supply, normalize: Id -> Id): Outcome<Bot> {
    var id := req.botID.Trimming();
    if id != NO_ID then
      if id !in reg.bots then Err(NotFound)
      else if !ActiveFor(reg.bots[id], req.owner, req.scopeID) then Err(BadRequest)
      else Ok(reg.bots[id])
    else
      var name := normalize(req.botName);
      if name == NO_ID then Err(BadRequest)
      else if NameTaken(reg.bots, req.owner, req.scopeID, name) then Err(Conflict)
      else if |ActiveBots(reg.bots, req.owner, req.scopeID)| >= req.quota then Err(QuotaExceeded)
      else Ok(Bot(supply.newBotID, req.owner, req.scopeID, req.botName.Trimming(), name, Active, NO_ID))
  }

  predicate Admissible(req: Request) {
    !req.owner.Blank() && !req.scopeID.Blank() && !req.artifactID.Blank() && req.quota >= 1
  }

  function RevisionOf(bot: Bot, req: Request, supply: Supply): Revision {
    Revision(supply.newRevisionID, bot.botID, req.artifactID,
             if req.validation.Unstated? then Ready else req.validation, supply.now)
  }

  function WithRevision(reg: Registry, bot: Bot, revision: Revision): Registry {
    Registry(reg.bots[bot.botID := bot.(revisionID := revision.revisionID)],
             reg.revisions[revision.revisionID := revision])
  }

  function CreatedOrRevised(reg: Registry, req: Request, supply: Supply, normalize: Id -> Id)
      : (Registry, Outcome<(Bot, Revision)>)
  {
    if !Admissible(req) then (reg, Err(BadRequest))
    else match BotFor(reg, req, supply, normalize)
      case Err(e) => (reg, Err(e))
      case Ok(bot) =>
        var revision := RevisionOf(bot, req, supply);
        (WithRevision(reg, bot, revision), Ok((bot.(revisionID := revision.revisionID), revision)))
  }

  function RetiredBot(reg: Registry, owner: Id, botID: Id): (Registry, Outcome<Bot>) {
    var id := botID.Trimming();
    if id !in reg.bots then (reg, Err(NotFound))
    else if reg.bots[id].owner != owner.Trimming() then (reg, Err(BadRequest))
    else
      var bot := reg.bots[id].(lifecycle := Retired);
      (reg.(bots := reg.bots[bot.botID := bot]), Ok(bot))
  }

  // ----- Eligible bots -----

  datatype Eligible = Eligible(botID: Id, scopeID: Id, name: Id, revisionID: Id, artifactID: Id)

  // The bot as a match takes it, if it is active in the scope with a ready revision.
  function EligibleBot(reg: Registry, scopeID: Id, id: Id): Option<Eligible> {
    if id !in reg.bots then None
    else
      var bot := reg.bots[id];
      if bot.scopeID != scopeID.Trimming() || !bot.lifecycle.Active? || bot.revisionID == NO_ID then None
      else if bot.revisionID !in reg.revisions || !reg.revisions[bot.revisionID].validation.Ready? then None
      else Some(Eligible(bot.botID, bot.scopeID, bot.name, bot.revisionID, reg.revisions[bot.revisionID].artifactID))
  }

  function Resolution(reg: Registry, scopeID: Id, botID: Id): Option<Eligible> {
    EligibleBot(reg, scopeID, botID.Trimming())
  }

  // The eligible bots of a scope, each once; ids are the ids they are stored under.
  ghost predicate ListsEligible(items: seq<Eligible>, reg: Registry, scopeID: Id, ids: seq<Id>) {
    && Distinct(ids) && |items| == |ids|
    && (forall id :: id in ids <==> EligibleBot(reg, scopeID, id).Some?)
    && (forall i | 0 <= i < |ids| :: EligibleBot(reg, scopeID, ids[i]) == Some(items[i]))
  }

  // ----- What every run keeps -----

  ghost predicate Sound(reg: Registry, quotaOf: Id -> int) {
    && (forall id | id in reg.bots :: reg.bots[id].botID == id && HasRevision(reg, id))
    && (forall owner, scopeID :: |ActiveBots(reg.bots, owner, scopeID)| <= Limit(quotaOf, scopeID))
    && (forall id, other | id in reg.bots && other in reg.bots && SameActiveName(reg.bots[id], reg.bots[other]) ::
          id == other)
  }

  function Limit(quotaOf: Id -> int, scopeID: Id): int { if quotaOf(scopeID) < 0 then 0 else quotaOf(scopeID) }

  predicate HasRevision(reg: Registry, id: Id)
    requires id in reg.bots
  {
    reg.bots[id].revisionID in reg.revisions && reg.revisions[reg.bots[id].revisionID].botID == id
  }

  predicate SameActiveName(a: Bot, b: Bot) {
    a.lifecycle.Active? && b.lifecycle.Active? && a.owner == b.owner && a.scopeID == b.scopeID
    && a.normalizedName == b.normalizedName
  }

  datatype Action =
    | Submit(req: Request, supply: Supply)
    | Retire(owner: Id, botID: Id)

  // A scope's quota does not change, and supplied ids are new.
  ghost predicate Allowed(reg: Registry, act: Action, quotaOf: Id -> int) {
    match act
    case Submit(req, supply) =>
      req.quota == quotaOf(req.scopeID) && supply.newBotID !in reg.bots && supply.newRevisionID !in reg.revisions
    case Retire(_, _) => true
  }

  function Step(reg: Registry, act: Action, normalize: Id -> Id): Registry {
    match act
    case Submit(req, supply) => CreatedOrRevised(reg, req, supply, normalize).0
    case Retire(owner, botID) => RetiredBot(reg, owner, botID).0
  }

  function Reached(acts: seq<Action>, normalize: Id -> Id): Registry {
    if acts == [] then EMPTY else Step(Reached(acts[..|acts| - 1], normalize), acts[|acts| - 1], normalize)
  }

  ghost predicate Run(acts: seq<Action>, normalize: Id -> Id, quotaOf: Id -> int) {
    acts == []
    || (Run(acts[..|acts| - 1], normalize, quotaOf)
        && Allowed(Reached(acts[..|acts| - 1], normalize), acts[|acts| - 1], quotaOf))
  }

  // Revisions are never changed or removed; bots are never removed, keep who and what they are, and
  // never come back from retirement.
  ghost predicate Extends(reg: Registry, reg': Registry) {
    && (forall id | id in reg.revisions :: id in reg'.revisions && reg'.revisions[id] == reg.revisions[id])
    && (forall id | id in reg.bots :: id in reg'.bots && SameBot(reg.bots[id], reg'.bots[id]))
  }

  predicate SameBot(b: Bot, b': Bot) {
    && b'.(revisionID := b.revisionID, lifecycle := b.lifecycle) == b
    && (b.lifecycle.Retired? ==> b'.lifecycle.Retired? && b'.revisionID == b.revisionID)
  }

  lemma StepExtends(reg: Registry, act: Action, normalize: Id -> Id, quotaOf: Id -> int)
    requires Allowed(reg, act, quotaOf) && forall id | id in reg.bots :: reg.bots[id].botID == id
    ensures Extends(reg, Step(reg, act, normalize))
  {
    hide Id.Blank, Id.Trimming, NameTaken, ActiveBots;
  }

  // One bot's activity changes the count of its own owner and scope only.
  lemma ActiveAfter(bots: map<Id, Bot>, bot: Bot, owner: Id, scopeID: Id)
    ensures var before, after := ActiveBots(bots, owner, scopeID), ActiveBots(bots[bot.botID := bot], owner, scopeID);
            && after == (if ActiveFor(bot, owner, scopeID) then before + {bot.botID} else before - {bot.botID})
            && |after| <= |before| + (if ActiveFor(bot, owner, scopeID) && bot.botID !in before then 1 else 0)
  {
  }

  lemma SubmitQuota(
      reg: Registry, req: Request, supply: Supply, normalize: Id -> Id, quotaOf: Id -> int, owner: Id, scopeID: Id)
    requires Sound(reg, quotaOf) && Allowed(reg, Submit(req, supply), quotaOf)
    requires BotFor(reg, req, supply, normalize).Ok?
    ensures var bot := BotFor(reg, req, supply, normalize).value.(revisionID := supply.newRevisionID);
            |ActiveBots(reg.bots[bot.botID := bot], owner, scopeID)| <= Limit(quotaOf, scopeID)
  {
    hide Id.Trimming, NameTaken;
    var bot := BotFor(reg, req, supply, normalize).value.(revisionID := supply.newRevisionID);
    assert |ActiveBots(reg.bots, owner, scopeID)| <= Limit(quotaOf, scopeID);
    ActiveAfter(reg.bots, bot, owner, scopeID);
  }

  lemma SubmitNames(reg: Registry, req: Request, supply: Supply, normalize: Id -> Id, quotaOf: Id -> int)
    requires Sound(reg, quotaOf) && Allowed(reg, Submit(req, supply), quotaOf)
    requires BotFor(reg, req, supply, normalize).Ok?
    ensures var bot := BotFor(reg, req, supply, normalize).value.(revisionID := supply.newRevisionID);
            var bots := reg.bots[bot.botID := bot];
            forall id, other | id in bots && other in bots && SameActiveName(bots[id], bots[other]) :: id == other
  {
    hide Id.Trimming, ActiveBots, Limit;
    var bot := BotFor(reg, req, supply, normalize).value.(revisionID := supply.newRevisionID);
    var bots := reg.bots[bot.botID := bot];
    forall id | id in reg.bots && id != bot.botID ensures !SameActiveName(bot, reg.bots[id]) {
      if req.botID.Trimming() != NO_ID {
        if SameActiveName(reg.bots[bot.botID], reg.bots[id]) { assert false; }
      } else if ActiveFor(reg.bots[id], req.owner, req.scopeID) {
        assert reg.bots[id].normalizedName != bot.normalizedName;
      }
    }
  }

  lemma SubmitSound(reg: Registry, req: Request, supply: Supply, normalize: Id -> Id, quotaOf: Id -> int)
    requires Sound(reg, quotaOf) && Allowed(reg, Submit(req, supply), quotaOf)
    ensures Sound(Step(reg, Submit(req, supply), normalize), quotaOf)
  {
    hide Id.Blank, Id.Trimming, ActiveBots, NameTaken, Limit;
    if BotFor(reg, req, supply, normalize).Ok? {
      var bot := BotFor(reg, req, supply, normalize).value.(revisionID := supply.newRevisionID);
      var bots := reg.bots[bot.botID := bot];
      forall owner, scopeID ensures |ActiveBots(bots, owner, scopeID)| <= Limit(quotaOf, scopeID) {
        SubmitQuota(reg, req, supply, normalize, quotaOf, owner, scopeID);
      }
      SubmitNames(reg, req, supply, normalize, quotaOf);
      SubmitRevisions(reg, req, supply, normalize, quotaOf);
    }
  }

  lemma SubmitRevisions(reg: Registry, req: Request, supply: Supply, normalize: Id -> Id, quotaOf: Id -> int)
    requires Sound(reg, quotaOf) && Allowed(reg, Submit(req, supply), quotaOf)
    requires BotFor(reg, req, supply, normalize).Ok?
    ensures var bot := BotFor(reg, req, supply, normalize).value;
            var reg' := WithRevision(reg, bot, RevisionOf(bot, req, supply));
            forall id | id in reg'.bots :: reg'.bots[id].botID == id && HasRevision(reg', id)
  {
    hide Id.Trimming, ActiveBots, NameTaken, Limit, SameActiveName;
  }

  lemma RetireSound(reg: Registry, owner: Id, botID: Id, quotaOf: Id -> int)
    requires Sound(reg, quotaOf)
    ensures Sound(RetiredBot(reg, owner, botID).0, quotaOf)
  {
    hide Id.Trimming, ActiveBots, Limit;
    var reg' := RetiredBot(reg, owner, botID).0;
    if reg' != reg {
      var bot := reg.bots[botID.Trimming()].(lifecycle := Retired);
      forall o, s ensures |ActiveBots(reg'.bots, o, s)| <= Limit(quotaOf, s) {
        assert |ActiveBots(reg.bots, o, s)| <= Limit(quotaOf, s);
        ActiveAfter(reg.bots, bot, o, s);
      }
    }
  }

  lemma {:induction false} RunIsSound(acts: seq<Action>, normalize: Id -> Id, quotaOf: Id -> int)
    requires Run(acts, normalize, quotaOf)
    ensures Sound(Reached(acts, normalize), quotaOf)
  {
    hide Sound, Step, Allowed;
    if acts == [] {
      EmptySound(quotaOf);
    } else {
      var reg, act := Reached(acts[..|acts| - 1], normalize), acts[|acts| - 1];
      RunIsSound(acts[..|acts| - 1], normalize, quotaOf);
      StepSound(reg, act, normalize, quotaOf);
    }
  }

  lemma EmptySound(quotaOf: Id -> int)
    ensures Sound(EMPTY, quotaOf)
  {
    forall owner, scopeID ensures ActiveBots(EMPTY.bots, owner, scopeID) == {} {}
  }

  lemma StepSound(reg: Registry, act: Action, normalize: Id -> Id, quotaOf: Id -> int)
    requires Sound(reg, quotaOf) && Allowed(reg, act, quotaOf)
    ensures Sound(Step(reg, act, normalize), quotaOf)
  {
    hide Sound, CreatedOrRevised, RetiredBot;
    match act
    case Submit(req, supply) => SubmitSound(reg, req, supply, normalize, quotaOf);
    case Retire(owner, botID) => RetireSound(reg, owner, botID, quotaOf);
  }

  /**
    Over every run: an owner never has more active bots in a scope than its quota, nor two active
    bots of one normalized name, and every bot's active revision is a stored revision of that bot.
  */
  lemma OwnershipIsSafe(acts: seq<Action>, normalize: Id -> Id, quotaOf: Id -> int)
    requires Run(acts, normalize, quotaOf)
    ensures var reg := Reached(acts, normalize);
            && (forall owner, scopeID :: |ActiveBots(reg.bots, owner, scopeID)| <= Limit(quotaOf, scopeID))
            && (forall id, other | id in reg.bots && other in reg.bots && SameActiveName(reg.bots[id], reg.bots[other]) ::
                  id == other)
            && (forall id | id in reg.bots :: reg.bots[id].revisionID in reg.revisions
                  && reg.revisions[reg.bots[id].revisionID].botID == id)
  {
    hide Reached, Run, ActiveBots, SameActiveName;
    RunIsSound(acts, normalize, quotaOf);
  }

  lemma {:induction false} RunPrefix(acts: seq<Action>, n: nat, normalize: Id -> Id, quotaOf: Id -> int)
    requires Run(acts, normalize, quotaOf) && n <= |acts|
    ensures Run(acts[..n], normalize, quotaOf)
  {
    if n == |acts| {
      assert acts[..n] == acts;
    } else {
      assert acts[..|acts| - 1][..n] == acts[..n];
      RunPrefix(acts[..|acts| - 1], n, normalize, quotaOf);
    }
  }

  // From any moment of a run on: stored revisions stay as they are, and retired bots stay retired.
  lemma {:induction false} HistoryIsImmutable(acts: seq<Action>, n: nat, normalize: Id -> Id, quotaOf: Id -> int)
    requires Run(acts, normalize, quotaOf) && n <= |acts|
    ensures Extends(Reached(acts[..n], normalize), Reached(acts, normalize))
  {
    hide Step, Allowed, SameBot;
    if n == |acts| {
      assert acts[..n] == acts;
      ExtendsSelf(Reached(acts, normalize));
    } else {
      var front := acts[..|acts| - 1];
      assert front[..n] == acts[..n];
      HistoryIsImmutable(front, n, normalize, quotaOf);
      RunIsSound(front, normalize, quotaOf);
      StepExtends(Reached(front, normalize), acts[|acts| - 1], normalize, quotaOf);
      ExtendsTwice(Reached(acts[..n], normalize), Reached(front, normalize), Reached(acts, normalize));
    }
  }

  lemma ExtendsSelf(reg: Registry)
    ensures Extends(reg, reg)
  {
  }

  lemma ExtendsTwice(a: Registry, b: Registry, c: Registry)
    requires Extends(a, b) && Extends(b, c)
    ensures Extends(a, c)
  {
    forall id | id in a.bots ensures id in c.bots && SameBot(a.bots[id], c.bots[id]) {
      assert SameBot(a.bots[id], b.bots[id]) && SameBot(b.bots[id], c.bots[id]);
    }
  }

  // In every run a resolved bot is active in the scope and comes with a stored, ready revision of its own.
  lemma ResolvedIsReady(acts: seq<Action>, normalize: Id -> Id, quotaOf: Id -> int, scopeID: Id, botID: Id)
    requires Run(acts, normalize, quotaOf) && Resolution(Reached(acts, normalize), scopeID, botID).Some?
    ensures var reg := Reached(acts, normalize);
            var e := Resolution(reg, scopeID, botID).value;
            && e.botID == botID.Trimming() && e.botID in reg.bots && reg.bots[e.botID].lifecycle.Active?
            && e.scopeID == scopeID.Trimming()
            && e.revisionID in reg.revisions && reg.revisions[e.revisionID].botID == e.botID
            && reg.revisions[e.revisionID].validation.Ready? && reg.revisions[e.revisionID].artifactID == e.artifactID
  {
    hide Reached, Run, ActiveBots, SameActiveName, Id.Trimming;
    RunIsSound(acts, normalize, quotaOf);
    var reg := Reached(acts, normalize);
    assert reg.bots[botID.Trimming()].botID == botID.Trimming() && HasRevision(reg, botID.Trimming());
  }

  // ----- Who may change a bot -----

  /**
    Exactly which requests are served, which error the others get, and what a served one leaves. A bot
    is revised for its own account alone, in its own scope and while it is active; a new one needs a
    name that no active bot of the account has in the scope, and room below the quota.
  */
  lemma SubmissionVerdict(reg: Registry, req: Request, supply: Supply, normalize: Id -> Id)
    ensures var (reg', r) := CreatedOrRevised(reg, req, supply, normalize);
            var id, name := req.botID.Trimming(), normalize(req.botName);
            var own := set b | b in reg.bots && reg.bots[b].owner == req.owner && reg.bots[b].scopeID == req.scopeID
                                && reg.bots[b].lifecycle == Active;
            var stated := !req.owner.Blank() && !req.scopeID.Blank() && !req.artifactID.Blank() && req.quota >= 1;
            && (r == Err(NotFound) <==> stated && id != NO_ID && id !in reg.bots)
            && (r == Err(Conflict) <==> stated && id == NO_ID && name != NO_ID
                                        && exists b | b in own :: reg.bots[b].normalizedName == name)
            && (r == Err(QuotaExceeded) <==> stated && id == NO_ID && name != NO_ID && |own| >= req.quota
                                             && forall b | b in own :: reg.bots[b].normalizedName != name)
            && (r == Err(BadRequest) <==> !stated || (id == NO_ID && name == NO_ID)
                                          || (id != NO_ID && id in reg.bots && id !in own))
            && (r.Err? ==> reg' == reg && r.error in {NotFound, Conflict, QuotaExceeded, BadRequest})
            && (r.Ok? ==>
                  var (bot, revision) := r.value;
                  && (id != NO_ID ==> id in reg.bots && bot == reg.bots[id].(revisionID := supply.newRevisionID))
                  && (id == NO_ID ==> bot == Bot(supply.newBotID, req.owner, req.scopeID, req.botName.Trimming(), name,
                                                 Active, supply.newRevisionID))
                  && revision.revisionID == supply.newRevisionID && revision.botID == bot.botID
                  && IsSubmitted(revision, req, supply.now)
                  && reg' == Registry(reg.bots[bot.botID := bot], reg.revisions[supply.newRevisionID := revision]))
  {
    hide Id.Blank, Id.Trimming;
    var own := set b | b in reg.bots && reg.bots[b].owner == req.owner && reg.bots[b].scopeID == req.scopeID
                        && reg.bots[b].lifecycle == Active;
    assert own == ActiveBots(reg.bots, req.owner, req.scopeID);
  }

  // The revision holds what was submitted; without a stated validation it is ready.
  ghost predicate IsSubmitted(revision: Revision, req: Request, now: int) {
    && revision.artifactID == req.artifactID && revision.createdAt == now
    && revision.validation == if req.validation.Unstated? then Ready else req.validation
  }

  /** Exactly the owner of a bot retires it, and nothing else about it or about another bot changes. */
  lemma RetirementVerdict(reg: Registry, owner: Id, botID: Id)
    requires forall id | id in reg.bots :: reg.bots[id].botID == id
    ensures var (reg', r) := RetiredBot(reg, owner, botID);
            var id := botID.Trimming();
            && (r == Err(NotFound) <==> id !in reg.bots)
            && (r == Err(BadRequest) <==> id in reg.bots && reg.bots[id].owner != owner.Trimming())
            && (r.Err? ==> reg' == reg && r.error in {NotFound, BadRequest})
            && (r.Ok? ==> reg' == Registry(reg.bots[id := r.value], reg.revisions)
                          && r.value == reg.bots[id].(lifecycle := Retired))
  {
    hide Id.Trimming;
  }

  // What happened to a bot in a step was asked for by the account that owns it.
  ghost predicate ChangedByOwner(reg: Registry, reg': Registry, act: Action, id: Id)
    requires id in reg'.bots
  {
    var bot := reg'.bots[id];
    && (id in reg.bots && bot.revisionID != reg.bots[id].revisionID ==>
          && act.Submit? && act.req.owner == bot.owner && act.req.scopeID == bot.scopeID
          && act.req.botID.Trimming() == id && reg.bots[id].lifecycle.Active?)
    && (id in reg.bots && bot.lifecycle != reg.bots[id].lifecycle ==>
          act.Retire? && act.owner.Trimming() == bot.owner && act.botID.Trimming() == id && bot.lifecycle.Retired?)
    && (id !in reg.bots ==>
          && act.Submit? && act.req.owner == bot.owner && act.req.scopeID == bot.scopeID
          && act.supply.newBotID == id && bot.lifecycle.Active?)
  }

  /**
    In every run a bot's active revision changes only by a request of its owner that names it, its
    lifecycle only by a retirement that its owner asks for, and a bot comes into being only by a request
    of the account that owns it.
  */
  lemma OnlyOwnersChangeBots(acts: seq<Action>, n: nat, normalize: Id -> Id, quotaOf: Id -> int, id: Id)
    requires Run(acts, normalize, quotaOf) && n < |acts| && id in Reached(acts[..n + 1], normalize).bots
    ensures ChangedByOwner(Reached(acts[..n], normalize), Reached(acts[..n + 1], normalize), acts[n], id)
    ensures Reached(acts[..n + 1], normalize) == Step(Reached(acts[..n], normalize), acts[n], normalize)
  {
    assert acts[..n + 1][..n] == acts[..n];
    RunPrefix(acts, n, normalize, quotaOf);
    RunPrefix(acts, n + 1, normalize, quotaOf);
    RunIsSound(acts[..n], normalize, quotaOf);
    StepByOwner(Reached(acts[..n], normalize), acts[n], normalize, quotaOf, id);
  }

  lemma StepByOwner(reg: Registry, act: Action, normalize: Id -> Id, quotaOf: Id -> int, id: Id)
    requires Sound(reg, quotaOf) && Allowed(reg, act, quotaOf) && id in Step(reg, act, normalize).bots
    ensures ChangedByOwner(reg, Step(reg, act, normalize), act, id)
  {
    hide Id.Blank, Id.Trimming, NameTaken, ActiveBots, Limit, SameActiveName;
  }

  // The bot's active revision is the one that this action submitted, for the bot's own account and scope.
  ghost predicate SubmittedBy(act: Action, reg: Registry, id: Id)
    requires id in reg.bots
  {
    var bot := reg.bots[id];
    && act.Submit? && act.req.owner == bot.owner && act.req.scopeID == bot.scopeID
    && act.supply.newRevisionID == bot.revisionID && bot.revisionID in reg.revisions
    && IsSubmitted(reg.revisions[bot.revisionID], act.req, act.supply.now)
  }

  ghost predicate RetiredBy(act: Action, bot: Bot) {
    act.Retire? && act.owner.Trimming() == bot.owner && act.botID.Trimming() == bot.botID
  }

  /**
    In every run each bot plays with what its own account submitted for it, in its own scope, and each
    retired bot was retired by its own account.
  */
  lemma {:induction false} BotsAreTheirOwners(acts: seq<Action>, normalize: Id -> Id, quotaOf: Id -> int, id: Id)
    requires Run(acts, normalize, quotaOf) && id in Reached(acts, normalize).bots
    ensures exists k :: 0 <= k < |acts| && SubmittedBy(acts[k], Reached(acts, normalize), id)
    ensures Reached(acts, normalize).bots[id].lifecycle.Retired? ==>
              exists k :: 0 <= k < |acts| && RetiredBy(acts[k], Reached(acts, normalize).bots[id])
  {
    hide Step, Allowed;
    var n := |acts| - 1;
    var before, reg := Reached(acts[..n], normalize), Reached(acts, normalize);
    RunIsSound(acts[..n], normalize, quotaOf);
    StepOfBot(before, acts[n], normalize, quotaOf, id);
    if !SubmittedBy(acts[n], reg, id) {
      BotsAreTheirOwners(acts[..n], normalize, quotaOf, id);
      var k :| 0 <= k < |acts[..n]| && SubmittedBy(acts[..n][k], before, id);
      assert acts[k] == acts[..n][k];
      assert SubmittedBy(acts[k], reg, id);
    }
    if reg.bots[id].lifecycle.Retired? && !RetiredBy(acts[n], reg.bots[id]) {
      BotsAreTheirOwners(acts[..n], normalize, quotaOf, id);
      var k :| 0 <= k < |acts[..n]| && RetiredBy(acts[..n][k], before.bots[id]);
      assert acts[k] == acts[..n][k];
    }
  }

  lemma StepOfBot(reg: Registry, act: Action, normalize: Id -> Id, quotaOf: Id -> int, id: Id)
    requires Sound(reg, quotaOf) && Allowed(reg, act, quotaOf) && id in Step(reg, act, normalize).bots
    ensures var reg' := Step(reg, act, normalize);
            && (SubmittedBy(act, reg', id)
                || (id in reg.bots && SameBot(reg.bots[id], reg'.bots[id]) && reg.bots[id].revisionID == reg'.bots[id].revisionID
                    && HasRevision(reg, id) && reg'.bots[id].revisionID in reg'.revisions
                    && reg'.revisions[reg.bots[id].revisionID] == reg.revisions[reg.bots[id].revisionID]))
            && (reg'.bots[id].lifecycle.Retired? ==>
                  || RetiredBy(act, reg'.bots[id])
                  || (id in reg.bots && reg.bots[id].lifecycle.Retired? && reg.bots[id].owner == reg'.bots[id].owner
                      && reg.bots[id].botID == reg'.bots[id].botID))
  {
    hide Id.Blank, Id.Trimming, NameTaken, ActiveBots, Limit, SameActiveName;
  }

  /** Exactly the bots that are active in the scope with a stored, ready revision are resolved, as what they are. */
  lemma ResolvedIff(reg: Registry, scopeID: Id, botID: Id)
    ensures var id, r := botID.Trimming(), Resolution(reg, scopeID, botID);
            && (r.Some? <==>
                  && id in reg.bots && reg.bots[id].scopeID == scopeID.Trimming() && reg.bots[id].lifecycle == Active
                  && reg.bots[id].revisionID != NO_ID && reg.bots[id].revisionID in reg.revisions
                  && reg.revisions[reg.bots[id].revisionID].validation == Ready)
            && (r.Some? ==>
                  var bot := reg.bots[id];
                  r.value == Eligible(bot.botID, bot.scopeID, bot.name, bot.revisionID,
                                      reg.revisions[bot.revisionID].artifactID))
  {
  }

  // ----- The store -----

  class InMemoryBotOwnershipStore {
    const normalize: Id -> Id
    var bots: map<Id, Bot>
    var revisions: map<Id, Revision>

    ghost function State(): Registry
      reads this
    {
      Registry(bots, revisions)
    }

    constructor (normalize: Id -> Id)
      ensures State() == EMPTY && this.normalize == normalize
    {
      this.normalize := normalize;
      bots, revisions := map[], map[];
    }

    /** internal/platform/service/bot_ownership.go:147-193 */
    method CreateOrRevise(req: Request, supply: Supply) returns (r: Outcome<(Bot, Revision)>)
      modifies this
      ensures (State(), r) == CreatedOrRevised(old(State()), req, supply, normalize)
    {
      hide Id.Blank, Id.Trimming;
      if req.owner.Blank() || req.scopeID.Blank() || req.artifactID.Blank() { return Err(BadRequest); }
      if req.quota < 1 { return Err(BadRequest); }
      var bot: Bot;
      var id := req.botID.Trimming();
      if id != NO_ID {
        if id !in bots { return Err(NotFound); }
        bot := bots[id];
        if bot.owner != req.owner || bot.scopeID != req.scopeID || !bot.lifecycle.Active? { return Err(BadRequest); }
      } else {
        var name := normalize(req.botName);
        if name == NO_ID { return Err(BadRequest); }
        var taken, active := CountActive(req.owner, req.scopeID, name);
        if taken { return Err(Conflict); }
        if active >= req.quota { return Err(QuotaExceeded); }
        bot := Bot(supply.newBotID, req.owner, req.scopeID, req.botName.Trimming(), name, Active, NO_ID);
      }
      var revision := Revision(supply.newRevisionID, bot.botID, req.artifactID,
                               if req.validation.Unstated? then Ready else req.validation, supply.now);
      bot := bot.(revisionID := revision.revisionID);
      bots := bots[bot.botID := bot];
      revisions := revisions[revision.revisionID := revision];
      return Ok((bot, revision));
    }

    // The scan over all bots (internal/platform/service/bot_ownership.go:171-179).
    method CountActive(owner: Id, scopeID: Id, name: Id) returns (taken: bool, active: nat)
      ensures taken <==> NameTaken(bots, owner, scopeID, name)
      ensures !taken ==> active == |ActiveBots(bots, owner, scopeID)|
    {
      active := 0;
      var left := bots.Keys;
      ghost var counted: set<Id> := {};
      while left != {}
        invariant left <= bots.Keys && active == |counted|
        invariant forall id :: id in counted <==> id in bots && id !in left && ActiveFor(bots[id], owner, scopeID)
        invariant forall id | id in bots && id !in left ::
                    !(ActiveFor(bots[id], owner, scopeID) && bots[id].normalizedName == name)
        decreases left
      {
        var id :| id in left;
        var candidate := bots[id];
        if candidate.owner == owner && candidate.scopeID == scopeID && candidate.lifecycle.Active? {
          active := active + 1;
          counted := counted + {id};
          if candidate.normalizedName == name { return true, active; }
        }
        left := left - {id};
      }
      assert counted == ActiveBots(bots, owner, scopeID);
      return false, active;
    }

    /** internal/platform/service/bot_ownership.go:196-209 */
    method Retire(owner: Id, botID: Id) returns (r: Outcome<Bot>)
      modifies this
      ensures (State(), r) == RetiredBot(old(State()), owner, botID)
    {
      hide Id.Trimming;
      if botID.Trimming() !in bots { return Err(NotFound); }
      var bot := bots[botID.Trimming()];
      if bot.owner != owner.Trimming() { return Err(BadRequest); }
      bot := bot.(lifecycle := Retired);
      bots := bots[bot.botID := bot];
      return Ok(bot);
    }

    /** internal/platform/service/bot_ownership.go:96-114: all bots in the given order, or none. */
    method ResolveEligible(scopeID: Id, ids: seq<Id>) returns (r: Outcome<seq<Eligible>>)
      ensures r.Ok? <==> forall i | 0 <= i < |ids| :: Resolution(State(), scopeID, ids[i]).Some?
      ensures r.Err? ==> r.error == BadRequest
      ensures r.Ok? ==> |r.value| == |ids|
                        && forall i | 0 <= i < |ids| :: Resolution(State(), scopeID, ids[i]) == Some(r.value[i])
    {
      hide Id.Trimming;
      var items: seq<Eligible> := [];
      for i := 0 to |ids|
        invariant |items| == i
        invariant forall j | 0 <= j < i :: Resolution(State(), scopeID, ids[j]) == Some(items[j])
      {
        var id := ids[i].Trimming();
        if id !in bots { return Err(BadRequest); }
        var bot := bots[id];
        if bot.scopeID != scopeID.Trimming() || !bot.lifecycle.Active? || bot.revisionID == NO_ID { return Err(BadRequest); }
        if bot.revisionID !in revisions || !revisions[bot.revisionID].validation.Ready? { return Err(BadRequest); }
        items := items + [Eligible(bot.botID, bot.scopeID, bot.name, bot.revisionID, revisions[bot.revisionID].artifactID)];
      }
      return Ok(items);
    }

    /** internal/platform/service/bot_ownership.go:117-132; Go visits the bots in an arbitrary order. */
    method ListEligible(scopeID: Id) returns (items: seq<Eligible>)
      ensures exists ids :: ListsEligible(items, State(), scopeID, ids)
    {
      hide Id.Trimming, Distinct;
      items := [];
      ghost var ids: seq<Id> := [];
      NothingDistinct();
      var left := bots.Keys;
      while left != {}
        invariant left <= bots.Keys && Distinct(ids) && |items| == |ids|
        invariant forall id :: id in ids <==> id !in left && EligibleBot(State(), scopeID, id).Some?
        invariant forall i | 0 <= i < |ids| :: EligibleBot(State(), scopeID, ids[i]) == Some(items[i])
        decreases left
      {
        var id :| id in left;
        var bot := bots[id];
        left := left - {id};
        if bot.scopeID != scopeID.Trimming() || !bot.lifecycle.Active? || bot.revisionID == NO_ID { continue; }
        if bot.revisionID !in revisions || !revisions[bot.revisionID].validation.Ready? { continue; }
        DistinctSnoc(ids, id);
        ids := ids + [id];
        items := items + [Eligible(bot.botID, bot.scopeID, bot.name, bot.revisionID, revisions[bot.revisionID].artifactID)];
      }
      assert ListsEligible(items, State(), scopeID, ids);
    }
  }

  lemma NothingDistinct()
    ensures Distinct<Id>([])
  {
  }
}
