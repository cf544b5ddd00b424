/** What the bot's callback handlers do to the store, as functions from the store before the
    callback to the store after it and the handler's answer. The methods of `Bot` are proved to
    behave exactly like these; the lemmas here state what the handlers promise. */
module Handlers {
  import opened Wrappers
  import opened Config
  import opened Records
  import GameLogic
  import AdvancedFeatures
  import Tables

  /** Why a handler answers with an alert instead of acting. A source crash on a missing player
      row (a `None` subscripted) is `PlayerMissing`: it happens before any write. */
  datatype Refusal =
    | PlayerMissing
    | OpponentMissing
    | OnCooldown(remaining: int)
    | NotReady
    | LoanNotFound
    | NotEligible(verdict: AdvancedFeatures.Eligibility)
    | InsufficientFunds
    | InvestmentUnavailable
    | NameTooShort
    | UnknownBusinessType
    | BusinessLimit
    | BusinessNotFound
    | AlreadyBought
    | CannotAfford
    | NotApplied(error: GameLogic.ImprovementError)
    | NoBusinesses

  // ---------------------------------------------------------------------------------------
  // Text helpers
  // ---------------------------------------------------------------------------------------

  function DigitChar(d: int): char
    requires 0 <= d < 10
  {
    ['0', '1', '2', '3', '4', '5', '6', '7', '8', '9'][d]
  }

  /** The decimal digits of a natural number, as Python's `str` writes them. */
  function Digits(n: nat): (r: string)
    ensures |r| >= 1 && forall c | c in r :: '0' <= c <= '9'
  {
    if n < 10 then [DigitChar(n)] else Digits(n / 10) + [DigitChar(n % 10)]
  }

  /** `str(n)` for the ids written into audit descriptions such as `Кредит #7`. */
  function IntToString(n: int): string
  {
    if n < 0 then "-" + Digits(-n) else Digits(n)
  }

  /** `player.get('username') or player.get('first_name')`: an empty user name is falsy. */
  function DisplayName(p: Player): string
  {
    if p.username != "" then p.username else p.firstName
  }

  /** The characters Python's `str.strip()` removes: `str.isspace()`. */
  predicate IsSpace(c: char)
  {
    var n := c as int;
    n == 0x20 || 0x09 <= n <= 0x0D || 0x1C <= n <= 0x1F || n == 0x85 || n == 0xA0 || n == 0x1680
    || 0x2000 <= n <= 0x200A || n == 0x2028 || n == 0x2029 || n == 0x202F || n == 0x205F || n == 0x3000
  }

  /** The text without its leading whitespace. */
  function TrimStart(s: string): (r: string)
    ensures |r| <= |s| && r == s[|s| - |r|..]
    ensures forall i | 0 <= i < |s| - |r| :: IsSpace(s[i])
    ensures r == [] || !IsSpace(r[0])
  {
    if s != [] && IsSpace(s[0]) then TrimStart(s[1..]) else s
  }

  /** The text without its trailing whitespace. */
  function TrimEnd(s: string): (r: string)
    ensures |r| <= |s| && r == s[..|r|]
    ensures forall i | |r| <= i < |s| :: IsSpace(s[i])
    ensures r == [] || !IsSpace(r[|r| - 1])
  {
    if s != [] && IsSpace(s[|s| - 1]) then TrimEnd(s[..|s| - 1]) else s
  }

  /** `str.strip()`: the slice of the text between its leading and its trailing whitespace. */
  function Strip(s: string): (r: string)
    ensures exists i, j | 0 <= i <= j <= |s| ::
      (r == s[i..j] && (forall k | 0 <= k < i :: IsSpace(s[k])) && (forall k | j <= k < |s| :: IsSpace(s[k])))
    ensures r == [] || (!IsSpace(r[0]) && !IsSpace(r[|r| - 1]))
  {
    var t := TrimStart(s);
    var r := TrimEnd(t);
    var i := |s| - |t|;
    assert r == s[i..i + |r|];
    r
  }

  /** Text without whitespace at either end is its own strip. */
  lemma {:induction false} StripNoOp(s: string)
    requires s == [] || (!IsSpace(s[0]) && !IsSpace(s[|s| - 1]))
    ensures Strip(s) == s
  {
  }

  /** Stripping twice is stripping once. */
  lemma StripIdempotent(s: string)
    ensures Strip(Strip(s)) == Strip(s)
  {
    StripNoOp(Strip(s));
  }

  // ---------------------------------------------------------------------------------------
  // pvp_fight
  // ---------------------------------------------------------------------------------------

  const PvpCooldownSeconds: int := 30
  /** The K factor `update_pvp_ratings_after_match` is called with (its default). */
  const EloK: real := 32.0

  /** `max(0, balance // 2)` on a float balance. */
  function HalfBalance(balance: real): int
  {
    var h := (balance / 2.0).Floor;
    if h > 0 then h else 0
  }

  /** `min(10000, max(0, b1 // 2), max(0, b2 // 2)) or 1000`: half of the poorer side's balance,
      capped at 10000, and 1000 whenever that is 0 — so a side with less than 2 still bets 1000. */
  function PvpBet(challengerBalance: real, opponentBalance: real): (bet: real)
    ensures 0.0 < bet <= 10000.0 && bet == bet.Floor as real
    ensures challengerBalance >= 2.0 && opponentBalance >= 2.0 ==>
      && 2.0 * bet <= challengerBalance && 2.0 * bet <= opponentBalance
      && (bet == 10000.0 || bet == (challengerBalance / 2.0).Floor as real || bet == (opponentBalance / 2.0).Floor as real)
    ensures challengerBalance < 2.0 || opponentBalance < 2.0 ==> bet == 1000.0
  {
    var h1, h2 := HalfBalance(challengerBalance), HalfBalance(opponentBalance);
    var clamped := if h1 <= h2 && h1 <= 10000 then h1 else if h2 <= 10000 then h2 else 10000;
    if clamped == 0 then 1000.0 else clamped as real
  }

  /** The `pvp_matches` row of a fight: the challenger wins on `Win`, the opponent on `Loss`. */
  function MatchRow(userId: int, opponentId: int, bet: real, result: AdvancedFeatures.PvpResult, now: int): (m: PvpMatch)
    ensures m.outcome == Win ==> m.winnerId == Some(userId) && m.loserId == Some(opponentId)
    ensures m.outcome == Loss ==> m.winnerId == Some(opponentId) && m.loserId == Some(userId)
    ensures m.outcome == Draw ==> m.winnerId.None? && m.loserId.None?
    ensures m.outcome == result.outcome && m.bet == bet
  {
    var winner := match result.outcome case Win => Some(userId) case Loss => Some(opponentId) case Draw => None;
    var loser := match result.outcome case Win => Some(opponentId) case Loss => Some(userId) case Draw => None;
    PvpMatch(userId, opponentId, winner, loser, bet, result.player1Power, result.player2Power, result.outcome, now)
  }

  /** Only the ratings enter the Elo exponent. */
  lemma EloExponentOfProfiles(s: Tables.Store, t: Tables.Store, a: int, b: int)
    requires Tables.RatingOf(t, a) == Tables.RatingOf(s, a) && Tables.RatingOf(t, b) == Tables.RatingOf(s, b)
    ensures Tables.EloExponent(t, a, b) == Tables.EloExponent(s, a, b)
    ensures Tables.EloExponent(t, b, a) == -Tables.EloExponent(s, a, b)
  {
  }

  /** The balance and rating moves after the match row: the winner is paid the bet by the
      loser and the ratings are updated with the winner first; a draw moves nothing. A loss
      uses 10^(-x) = 1 / 10^x for the exponent seen from the opponent. */
  function Settle(s: Tables.Store, userId: int, opponentId: int, userName: string, opponentName: string,
                  outcome: Outcome, bet: real, tenPow: real, now: int): (r: Tables.Store)
    requires Tables.IsPow10Of(tenPow, Tables.EloExponent(s, userId, opponentId))
    ensures outcome == Draw ==> r == s
  {
    match outcome
    case Draw => s
    case Win =>
      var a := Tables.UpdatePlayerBalance(s, userId, bet, "pvp_win", "Победа над " + opponentName, now);
      var b := Tables.UpdatePlayerBalance(a, opponentId, -bet, "pvp_loss", "Поражение от " + userName, now);
      EloExponentOfProfiles(s, b, userId, opponentId);
      Tables.UpdatePvpRatings(b, userId, opponentId, EloK, tenPow, now)
    case Loss =>
      var a := Tables.UpdatePlayerBalance(s, userId, -bet, "pvp_loss", "Поражение от " + opponentName, now);
      var b := Tables.UpdatePlayerBalance(a, opponentId, bet, "pvp_win", "Победа над " + userName, now);
      EloExponentOfProfiles(s, b, userId, opponentId);
      Tables.Pow10OfNegation(tenPow, Tables.EloExponent(s, userId, opponentId));
      Tables.UpdatePvpRatings(b, opponentId, userId, EloK, 1.0 / tenPow, now)
  }

  /** `pvp_fight` with the outcome draws `d` and `tenPow` = 10^((R_opponent − R_challenger)/400)
      passed in: the opponent must exist, then the challenger (whose missing row crashes the
      bet clamp); the challenger's profile is created; a running cooldown refuses the fight;
      otherwise the match is recorded, settled, and the challenger's 30-second cooldown set. */
  function PvpFightStep(s: Tables.Store, userId: int, opponentId: int, d: AdvancedFeatures.PvpDraws, tenPow: real, now: int)
    : (r: (Tables.Store, Result<AdvancedFeatures.PvpResult, Refusal>))
    requires AdvancedFeatures.ValidDraws(d) && Tables.IsPow10Of(tenPow, Tables.EloExponent(s, userId, opponentId))
    ensures r.1.Failure? ==> r.0 == Tables.EnsurePvpProfile(s, userId) || r.0 == s
  {
    if opponentId !in s.players then (s, Failure(OpponentMissing))
    else if userId !in s.players then (s, Failure(PlayerMissing))
    else
      var player, opponent := s.players[userId], s.players[opponentId];
      var bet := PvpBet(player.balance, opponent.balance);
      var s1 := Tables.EnsurePvpProfile(s, userId);
      var remain := Tables.PvpCooldownRemaining(s1, userId, now);
      if remain > 0 then (s1, Failure(OnCooldown(remain)))
      else
        var result := AdvancedFeatures.PvpOutcome(player, opponent, bet, d);
        var s2 := Tables.RecordPvpMatch(s1, MatchRow(userId, opponentId, bet, result, now));
        EloExponentOfProfiles(s, s2, userId, opponentId);
        var s3 := Settle(s2, userId, opponentId, DisplayName(player), DisplayName(opponent), result.outcome, bet, tenPow, now);
        (Tables.SetPvpCooldown(s3, userId, PvpCooldownSeconds, now), Success(result))
  }

  /** A running cooldown refuses the fight before any match row, balance or rating change. */
  lemma PvpCooldownBlocksFight(s: Tables.Store, userId: int, opponentId: int, d: AdvancedFeatures.PvpDraws, tenPow: real, now: int)
    requires AdvancedFeatures.ValidDraws(d) && Tables.IsPow10Of(tenPow, Tables.EloExponent(s, userId, opponentId))
    requires userId in s.players && opponentId in s.players
    requires Tables.PvpCooldownRemaining(s, userId, now) > 0
    ensures PvpFightStep(s, userId, opponentId, d, tenPow, now) == (s, Failure(OnCooldown(Tables.PvpCooldownRemaining(s, userId, now))))
  {
  }

  /** The balance of `id` in a store, 0 without a row. */
  function BalanceOf(s: Tables.Store, id: int): real
  {
    if id in s.players then s.players[id].balance else 0.0
  }

  /** The Elo update between two different players moves the winner's rating up and the
      loser's down by the same `WinnerGain`, and touches no player row or match. */
  lemma RatingsMove(s: Tables.Store, winnerId: int, loserId: int, tenPow: real, now: int)
    requires winnerId != loserId
    requires Tables.IsPow10Of(tenPow, Tables.EloExponent(s, winnerId, loserId))
    ensures var t := Tables.UpdatePvpRatings(s, winnerId, loserId, EloK, tenPow, now);
      && t.players == s.players && t.pvpMatches == s.pvpMatches
      && Tables.RatingOf(t, winnerId) - Tables.RatingOf(s, winnerId) == Tables.WinnerGain(EloK, tenPow)
      && Tables.RatingOf(s, loserId) - Tables.RatingOf(t, loserId) == Tables.WinnerGain(EloK, tenPow)
  {
    var ratings := Tables.NewRatings(s, winnerId, loserId, EloK, tenPow);
    var t := Tables.UpdatePvpRatings(s, winnerId, loserId, EloK, tenPow, now);
    assert t.pvpProfiles[winnerId].rating == ratings.0;
    assert t.pvpProfiles[loserId].rating == ratings.1;
  }

  /** What settling does between two different players, outcome by outcome. */
  lemma SettleEffects(s: Tables.Store, userId: int, opponentId: int, userName: string, opponentName: string,
                      outcome: Outcome, bet: real, tenPow: real, now: int)
    requires userId != opponentId && userId in s.players && opponentId in s.players
    requires Tables.IsPow10Of(tenPow, Tables.EloExponent(s, userId, opponentId))
    ensures var t := Settle(s, userId, opponentId, userName, opponentName, outcome, bet, tenPow, now);
      && t.pvpMatches == s.pvpMatches
      && t.players.Keys == s.players.Keys
      && s.pvpProfiles.Keys <= t.pvpProfiles.Keys
      && (forall id | id in s.players && id != userId && id != opponentId :: t.players[id] == s.players[id])
      && (outcome == Win ==>
            && BalanceOf(t, userId) == BalanceOf(s, userId) + bet
            && BalanceOf(t, opponentId) == BalanceOf(s, opponentId) - bet
            && Tables.RatingOf(t, userId) - Tables.RatingOf(s, userId) == Tables.WinnerGain(EloK, tenPow)
            && Tables.RatingOf(s, opponentId) - Tables.RatingOf(t, opponentId) == Tables.WinnerGain(EloK, tenPow))
      && (outcome == Loss ==>
            && BalanceOf(t, userId) == BalanceOf(s, userId) - bet
            && BalanceOf(t, opponentId) == BalanceOf(s, opponentId) + bet
            && Tables.RatingOf(t, opponentId) - Tables.RatingOf(s, opponentId) == Tables.WinnerGain(EloK, 1.0 / tenPow)
            && Tables.RatingOf(s, userId) - Tables.RatingOf(t, userId) == Tables.WinnerGain(EloK, 1.0 / tenPow))
  {
    match outcome
    case Draw =>
    case Win =>
      var a := Tables.UpdatePlayerBalance(s, userId, bet, "pvp_win", "Победа над " + opponentName, now);
      var b := Tables.UpdatePlayerBalance(a, opponentId, -bet, "pvp_loss", "Поражение от " + userName, now);
      EloExponentOfProfiles(s, b, userId, opponentId);
      RatingsMove(b, userId, opponentId, tenPow, now);
    case Loss =>
      var a := Tables.UpdatePlayerBalance(s, userId, -bet, "pvp_loss", "Поражение от " + opponentName, now);
      var b := Tables.UpdatePlayerBalance(a, opponentId, bet, "pvp_win", "Победа над " + userName, now);
      EloExponentOfProfiles(s, b, userId, opponentId);
      Tables.Pow10OfNegation(tenPow, Tables.EloExponent(s, userId, opponentId));
      RatingsMove(b, opponentId, userId, 1.0 / tenPow, now);
  }

  /** Settling and then starting the challenger's cooldown: the cooldown touches no balance
      and no rating, so the settlement's effects carry over. */
  lemma SettledAndCooled(s: Tables.Store, userId: int, opponentId: int, userName: string, opponentName: string,
                         outcome: Outcome, bet: real, tenPow: real, now: int)
    requires userId != opponentId && userId in s.players && opponentId in s.players
    requires Tables.IsPow10Of(tenPow, Tables.EloExponent(s, userId, opponentId))
    ensures var t := Tables.SetPvpCooldown(Settle(s, userId, opponentId, userName, opponentName, outcome, bet, tenPow, now),
                                           userId, PvpCooldownSeconds, now);
      && (forall id | id in s.players && id != userId && id != opponentId :: t.players[id] == s.players[id])
      && (outcome == Win ==>
            && BalanceOf(t, userId) == BalanceOf(s, userId) + bet
            && BalanceOf(t, opponentId) == BalanceOf(s, opponentId) - bet
            && Tables.RatingOf(t, userId) - Tables.RatingOf(s, userId) == Tables.WinnerGain(EloK, tenPow)
            && Tables.RatingOf(s, opponentId) - Tables.RatingOf(t, opponentId) == Tables.WinnerGain(EloK, tenPow))
      && (outcome == Loss ==>
            && BalanceOf(t, userId) == BalanceOf(s, userId) - bet
            && BalanceOf(t, opponentId) == BalanceOf(s, opponentId) + bet
            && Tables.RatingOf(t, opponentId) - Tables.RatingOf(s, opponentId) == Tables.WinnerGain(EloK, 1.0 / tenPow)
            && Tables.RatingOf(s, userId) - Tables.RatingOf(t, userId) == Tables.WinnerGain(EloK, 1.0 / tenPow))
      && (outcome == Draw ==>
            && t.players == s.players
            && Tables.RatingOf(t, userId) == Tables.RatingOf(s, userId)
            && Tables.RatingOf(t, opponentId) == Tables.RatingOf(s, opponentId))
  {
    var s3 := Settle(s, userId, opponentId, userName, opponentName, outcome, bet, tenPow, now);
    SettleEffects(s, userId, opponentId, userName, opponentName, outcome, bet, tenPow, now);
    var t := Tables.SetPvpCooldown(s3, userId, PvpCooldownSeconds, now);
    assert t.players == s3.players;
    assert Tables.RatingOf(t, userId) == Tables.RatingOf(s3, userId);
    assert Tables.RatingOf(t, opponentId) == Tables.RatingOf(s3, opponentId);
  }

  /** The store a fought duel leaves, spelled out step by step. */
  lemma FoughtStore(s: Tables.Store, userId: int, opponentId: int, d: AdvancedFeatures.PvpDraws, tenPow: real, now: int)
    requires AdvancedFeatures.ValidDraws(d) && Tables.IsPow10Of(tenPow, Tables.EloExponent(s, userId, opponentId))
    requires PvpFightStep(s, userId, opponentId, d, tenPow, now).1.Success?
    ensures userId in s.players && opponentId in s.players
    ensures var player, opponent := s.players[userId], s.players[opponentId];
      var bet := PvpBet(player.balance, opponent.balance);
      var result := AdvancedFeatures.PvpOutcome(player, opponent, bet, d);
      var s2 := Tables.RecordPvpMatch(Tables.EnsurePvpProfile(s, userId), MatchRow(userId, opponentId, bet, result, now));
      && s2.players == s.players && userId in s2.pvpProfiles
      && Tables.RatingOf(s2, userId) == Tables.RatingOf(s, userId) && Tables.RatingOf(s2, opponentId) == Tables.RatingOf(s, opponentId)
      && Tables.IsPow10Of(tenPow, Tables.EloExponent(s2, userId, opponentId))
      && PvpFightStep(s, userId, opponentId, d, tenPow, now) == (Tables.SetPvpCooldown(
           Settle(s2, userId, opponentId, DisplayName(player), DisplayName(opponent), result.outcome, bet, tenPow, now),
           userId, PvpCooldownSeconds, now), Success(result))
  {
    var player, opponent := s.players[userId], s.players[opponentId];
    var bet := PvpBet(player.balance, opponent.balance);
    var result := AdvancedFeatures.PvpOutcome(player, opponent, bet, d);
    var s2 := Tables.RecordPvpMatch(Tables.EnsurePvpProfile(s, userId), MatchRow(userId, opponentId, bet, result, now));
    EloExponentOfProfiles(s, s2, userId, opponentId);
  }

  /** Every fought duel, a draw included, leaves exactly one new match row and the challenger
      cooling down for 30 seconds. */
  lemma PvpFightRecordsAndCools(s: Tables.Store, userId: int, opponentId: int, d: AdvancedFeatures.PvpDraws, tenPow: real, now: int)
    requires AdvancedFeatures.ValidDraws(d) && Tables.IsPow10Of(tenPow, Tables.EloExponent(s, userId, opponentId))
    requires PvpFightStep(s, userId, opponentId, d, tenPow, now).1.Success?
    ensures var (t, res) := PvpFightStep(s, userId, opponentId, d, tenPow, now);
      && t.pvpMatches == s.pvpMatches + [MatchRow(userId, opponentId, PvpBet(s.players[userId].balance, s.players[opponentId].balance), res.value, now)]
      && Tables.PvpCooldownRemaining(t, userId, now) == PvpCooldownSeconds
  {
    FoughtStore(s, userId, opponentId, d, tenPow, now);
    var player, opponent := s.players[userId], s.players[opponentId];
    var bet := PvpBet(player.balance, opponent.balance);
    var result := AdvancedFeatures.PvpOutcome(player, opponent, bet, d);
    var s2 := Tables.RecordPvpMatch(Tables.EnsurePvpProfile(s, userId), MatchRow(userId, opponentId, bet, result, now));
    var s3 := Settle(s2, userId, opponentId, DisplayName(player), DisplayName(opponent), result.outcome, bet, tenPow, now);
    if userId != opponentId {
      SettleEffects(s2, userId, opponentId, DisplayName(player), DisplayName(opponent), result.outcome, bet, tenPow, now);
    } else {
      assert s3.pvpMatches == s2.pvpMatches && userId in s3.pvpProfiles;
    }
    Tables.PvpCooldownLifecycle(s3, userId, PvpCooldownSeconds, now);
  }

  /** A won fight: the challenger gains the bet and the Elo gain, the opponent loses both. */
  lemma PvpWinSettles(s: Tables.Store, userId: int, opponentId: int, d: AdvancedFeatures.PvpDraws, tenPow: real, now: int)
    requires userId != opponentId
    requires AdvancedFeatures.ValidDraws(d) && Tables.IsPow10Of(tenPow, Tables.EloExponent(s, userId, opponentId))
    requires PvpFightStep(s, userId, opponentId, d, tenPow, now).1.Success?
    requires PvpFightStep(s, userId, opponentId, d, tenPow, now).1.value.outcome == Win
    ensures var t := PvpFightStep(s, userId, opponentId, d, tenPow, now).0;
      var bet := PvpBet(s.players[userId].balance, s.players[opponentId].balance);
      && BalanceOf(t, userId) == BalanceOf(s, userId) + bet
      && BalanceOf(t, opponentId) == BalanceOf(s, opponentId) - bet
      && Tables.RatingOf(t, userId) - Tables.RatingOf(s, userId) == Tables.WinnerGain(EloK, tenPow)
      && Tables.RatingOf(s, opponentId) - Tables.RatingOf(t, opponentId) == Tables.WinnerGain(EloK, tenPow)
  {
    FoughtStore(s, userId, opponentId, d, tenPow, now);
    var player, opponent := s.players[userId], s.players[opponentId];
    var bet := PvpBet(player.balance, opponent.balance);
    var result := AdvancedFeatures.PvpOutcome(player, opponent, bet, d);
    var s2 := Tables.RecordPvpMatch(Tables.EnsurePvpProfile(s, userId), MatchRow(userId, opponentId, bet, result, now));
    SettledAndCooled(s2, userId, opponentId, DisplayName(player), DisplayName(opponent), result.outcome, bet, tenPow, now);
    assert BalanceOf(s2, userId) == BalanceOf(s, userId) && BalanceOf(s2, opponentId) == BalanceOf(s, opponentId);
  }

  /** A lost fight moves the bet from the challenger to the opponent. */
  lemma PvpLossSettles(s: Tables.Store, userId: int, opponentId: int, d: AdvancedFeatures.PvpDraws, tenPow: real, now: int)
    requires userId != opponentId
    requires AdvancedFeatures.ValidDraws(d) && Tables.IsPow10Of(tenPow, Tables.EloExponent(s, userId, opponentId))
    requires PvpFightStep(s, userId, opponentId, d, tenPow, now).1.Success?
    requires PvpFightStep(s, userId, opponentId, d, tenPow, now).1.value.outcome == Loss
    ensures var t := PvpFightStep(s, userId, opponentId, d, tenPow, now).0;
      var bet := PvpBet(s.players[userId].balance, s.players[opponentId].balance);
      && BalanceOf(t, userId) == BalanceOf(s, userId) - bet
      && BalanceOf(t, opponentId) == BalanceOf(s, opponentId) + bet
  {
    FoughtStore(s, userId, opponentId, d, tenPow, now);
    var player, opponent := s.players[userId], s.players[opponentId];
    var bet := PvpBet(player.balance, opponent.balance);
    var result := AdvancedFeatures.PvpOutcome(player, opponent, bet, d);
    var s2 := Tables.RecordPvpMatch(Tables.EnsurePvpProfile(s, userId), MatchRow(userId, opponentId, bet, result, now));
    SettledAndCooled(s2, userId, opponentId, DisplayName(player), DisplayName(opponent), result.outcome, bet, tenPow, now);
    assert BalanceOf(s2, userId) == BalanceOf(s, userId) && BalanceOf(s2, opponentId) == BalanceOf(s, opponentId);
  }

  /** A lost fight is the Elo mirror image of a win, with the exponent negated: the opponent
      gains exactly what the challenger loses. */
  lemma PvpLossRatings(s: Tables.Store, userId: int, opponentId: int, d: AdvancedFeatures.PvpDraws, tenPow: real, now: int)
    requires userId != opponentId
    requires AdvancedFeatures.ValidDraws(d) && Tables.IsPow10Of(tenPow, Tables.EloExponent(s, userId, opponentId))
    requires PvpFightStep(s, userId, opponentId, d, tenPow, now).1.Success?
    requires PvpFightStep(s, userId, opponentId, d, tenPow, now).1.value.outcome == Loss
    ensures var t := PvpFightStep(s, userId, opponentId, d, tenPow, now).0;
      && Tables.RatingOf(t, opponentId) - Tables.RatingOf(s, opponentId) == Tables.WinnerGain(EloK, 1.0 / tenPow)
      && Tables.RatingOf(s, userId) - Tables.RatingOf(t, userId) == Tables.WinnerGain(EloK, 1.0 / tenPow)
  {
    FoughtStore(s, userId, opponentId, d, tenPow, now);
    var player, opponent := s.players[userId], s.players[opponentId];
    var bet := PvpBet(player.balance, opponent.balance);
    var result := AdvancedFeatures.PvpOutcome(player, opponent, bet, d);
    var s2 := Tables.RecordPvpMatch(Tables.EnsurePvpProfile(s, userId), MatchRow(userId, opponentId, bet, result, now));
    SettledAndCooled(s2, userId, opponentId, DisplayName(player), DisplayName(opponent), result.outcome, bet, tenPow, now);
    assert BalanceOf(s2, userId) == BalanceOf(s, userId) && BalanceOf(s2, opponentId) == BalanceOf(s, opponentId);
  }

  /** A drawn fight moves no balance and no rating. */
  lemma PvpDrawSettles(s: Tables.Store, userId: int, opponentId: int, d: AdvancedFeatures.PvpDraws, tenPow: real, now: int)
    requires userId != opponentId
    requires AdvancedFeatures.ValidDraws(d) && Tables.IsPow10Of(tenPow, Tables.EloExponent(s, userId, opponentId))
    requires PvpFightStep(s, userId, opponentId, d, tenPow, now).1.Success?
    requires PvpFightStep(s, userId, opponentId, d, tenPow, now).1.value.outcome == Draw
    ensures var t := PvpFightStep(s, userId, opponentId, d, tenPow, now).0;
      && t.players == s.players
      && Tables.RatingOf(t, userId) == Tables.RatingOf(s, userId)
      && Tables.RatingOf(t, opponentId) == Tables.RatingOf(s, opponentId)
  {
    FoughtStore(s, userId, opponentId, d, tenPow, now);
    var player, opponent := s.players[userId], s.players[opponentId];
    var bet := PvpBet(player.balance, opponent.balance);
    var result := AdvancedFeatures.PvpOutcome(player, opponent, bet, d);
    var s2 := Tables.RecordPvpMatch(Tables.EnsurePvpProfile(s, userId), MatchRow(userId, opponentId, bet, result, now));
    SettledAndCooled(s2, userId, opponentId, DisplayName(player), DisplayName(opponent), result.outcome, bet, tenPow, now);
    assert BalanceOf(s2, userId) == BalanceOf(s, userId) && BalanceOf(s2, opponentId) == BalanceOf(s, opponentId);
  }

  /** A fight touches no player row but the two duellists'. */
  lemma PvpBystandersUntouched(s: Tables.Store, userId: int, opponentId: int, d: AdvancedFeatures.PvpDraws, tenPow: real, now: int)
    requires userId != opponentId
    requires AdvancedFeatures.ValidDraws(d) && Tables.IsPow10Of(tenPow, Tables.EloExponent(s, userId, opponentId))
    requires PvpFightStep(s, userId, opponentId, d, tenPow, now).1.Success?
    ensures var t := PvpFightStep(s, userId, opponentId, d, tenPow, now).0;
      forall id | id in s.players && id != userId && id != opponentId :: t.players[id] == s.players[id]
  {
    FoughtStore(s, userId, opponentId, d, tenPow, now);
    var player, opponent := s.players[userId], s.players[opponentId];
    var bet := PvpBet(player.balance, opponent.balance);
    var result := AdvancedFeatures.PvpOutcome(player, opponent, bet, d);
    var s2 := Tables.RecordPvpMatch(Tables.EnsurePvpProfile(s, userId), MatchRow(userId, opponentId, bet, result, now));
    SettledAndCooled(s2, userId, opponentId, DisplayName(player), DisplayName(opponent), result.outcome, bet, tenPow, now);
    assert BalanceOf(s2, userId) == BalanceOf(s, userId) && BalanceOf(s2, opponentId) == BalanceOf(s, opponentId);
  }

  /** The two duellists' balances sum to the same amount after every fight, and the Elo exchange
      between them is zero-sum. */
  lemma PvpFightZeroSum(s: Tables.Store, userId: int, opponentId: int, d: AdvancedFeatures.PvpDraws, tenPow: real, now: int)
    requires userId != opponentId
    requires AdvancedFeatures.ValidDraws(d) && Tables.IsPow10Of(tenPow, Tables.EloExponent(s, userId, opponentId))
    ensures var t := PvpFightStep(s, userId, opponentId, d, tenPow, now).0;
      && BalanceOf(t, userId) + BalanceOf(t, opponentId) == BalanceOf(s, userId) + BalanceOf(s, opponentId)
      && Tables.RatingOf(t, userId) + Tables.RatingOf(t, opponentId) == Tables.RatingOf(s, userId) + Tables.RatingOf(s, opponentId)
  {
    var res := PvpFightStep(s, userId, opponentId, d, tenPow, now).1;
    if res.Success? {
      match res.value.outcome
      case Win => PvpWinSettles(s, userId, opponentId, d, tenPow, now);
      case Loss =>
        PvpLossSettles(s, userId, opponentId, d, tenPow, now);
        PvpLossRatings(s, userId, opponentId, d, tenPow, now);
      case Draw => PvpDrawSettles(s, userId, opponentId, d, tenPow, now);
    }
  }

  // ---------------------------------------------------------------------------------------
  // prod_collect
  // ---------------------------------------------------------------------------------------

  /** The three draws of the payout: `random.random()`, `random.uniform(0.2, 0.8)` and
      `random.lognormvariate(0.0, 0.6)`. */
  datatype ProductionDraws = ProductionDraws(failRoll: real, loss: real, lognormal: real)

  predicate ValidProductionDraws(d: ProductionDraws)
  {
    0.0 <= d.failRoll < 1.0 && 0.2 <= d.loss <= 0.8 && d.lognormal > 0.0
  }

  /** The payout base of a collected job: 20000 for IT, 50 per unit for FARM, 120 per unit for
      FACTORY, nothing for any other type. */
  function ProductionBase(job: Tables.CollectedJob): (r: real)
    ensures job.quantity >= 0.0 ==> r >= 0.0
    ensures job.prodType !in {"IT", "FARM", "FACTORY"} ==> r == 0.0
  {
    if job.prodType == "IT" then 20000.0
    else if job.prodType == "FARM" then job.quantity * 50.0
    else if job.prodType == "FACTORY" then job.quantity * 120.0
    else 0.0
  }

  /** The payout factor: a loss of 20–80% on a failure roll below 0.1, otherwise the log-normal
      draw clipped to [0.2, 10]. */
  function RewardFactor(d: ProductionDraws): (f: real)
    requires ValidProductionDraws(d)
    ensures d.failRoll < 0.1 ==> -0.8 <= f <= -0.2
    ensures d.failRoll >= 0.1 ==> 0.2 <= f <= 10.0
  {
    if d.failRoll < 0.1 then -d.loss else Min(10.0, Max(0.2, d.lognormal))
  }

  /** `prod_collect`: nothing is paid unless `collect_production` hands the job over; then the
      reward is credited to the caller as `production`. */
  function ProdCollectStep(s: Tables.Store, prodId: int, userId: int, d: ProductionDraws, now: int)
    : (r: (Tables.Store, Result<real, Refusal>))
    requires ValidProductionDraws(d)
    ensures Tables.CollectInfo(s, prodId, userId, now).None? <==> r == (s, Failure(NotReady))
  {
    match Tables.CollectInfo(s, prodId, userId, now)
    case None => (s, Failure(NotReady))
    case Some(job) =>
      var reward := ProductionBase(job) * RewardFactor(d);
      var s1 := Tables.CollectProduction(s, prodId, userId, now);
      (Tables.UpdatePlayerBalance(s1, userId, reward, "production", "Операция по продукции: " + job.name, now), Success(reward))
  }

  /** The reward is the base times a factor in [-0.8, -0.2] after a failure roll and in
      [0.2, 10] otherwise. */
  lemma ProdCollectReward(s: Tables.Store, prodId: int, userId: int, d: ProductionDraws, now: int)
    requires ValidProductionDraws(d)
    requires ProdCollectStep(s, prodId, userId, d, now).1.Success?
    ensures var res := ProdCollectStep(s, prodId, userId, d, now).1;
      var base := ProductionBase(Tables.CollectInfo(s, prodId, userId, now).value);
      && (d.failRoll < 0.1 ==> res.value == -d.loss * base)
      && (base >= 0.0 && d.failRoll < 0.1 ==> -0.8 * base <= res.value <= -0.2 * base)
      && (base >= 0.0 && d.failRoll >= 0.1 ==> 0.2 * base <= res.value <= 10.0 * base)
  {
    var base := ProductionBase(Tables.CollectInfo(s, prodId, userId, now).value);
    var f := RewardFactor(d);
    assert ProdCollectStep(s, prodId, userId, d, now).1.value == base * f;
    if base >= 0.0 {
      if d.failRoll < 0.1 {
        assert -0.8 * base <= f * base <= -0.2 * base;
      } else {
        assert 0.2 * base <= f * base <= 10.0 * base;
      }
    }
  }

  /** The reward is credited to the caller, and only to the caller. */
  lemma ProdCollectCredits(s: Tables.Store, prodId: int, userId: int, d: ProductionDraws, now: int)
    requires ValidProductionDraws(d)
    requires ProdCollectStep(s, prodId, userId, d, now).1.Success?
    ensures var (t, res) := ProdCollectStep(s, prodId, userId, d, now);
      && BalanceOf(t, userId) == BalanceOf(s, userId) + (if userId in s.players then res.value else 0.0)
      && (forall id | id in s.players && id != userId :: t.players[id] == s.players[id])
  {
    var s1 := Tables.CollectProduction(s, prodId, userId, now);
    assert s1.players == s.players;
  }

  /** Once collected, the job cannot be collected again by anyone at any later time. */
  lemma ProdCollectOnce(s: Tables.Store, prodId: int, userId: int, d: ProductionDraws, now: int,
                        e: ProductionDraws, otherUser: int, later: int)
    requires ValidProductionDraws(d) && ValidProductionDraws(e)
    requires ProdCollectStep(s, prodId, userId, d, now).1.Success?
    ensures var t := ProdCollectStep(s, prodId, userId, d, now).0;
      ProdCollectStep(t, prodId, otherUser, e, later) == (t, Failure(NotReady))
  {
    var t := ProdCollectStep(s, prodId, userId, d, now).0;
    Tables.CollectAtMostOnce(s, prodId, userId, now, otherUser, later);
    assert t.productions == Tables.CollectProduction(s, prodId, userId, now).productions;
    assert t.businesses == s.businesses;
  }

  // ---------------------------------------------------------------------------------------
  // loan_repay_quick
  // ---------------------------------------------------------------------------------------

  /** `loan_repay_quick`: the caller's loan, whatever its status, is looked up; the payment is
      clamped to what remains, repaid, and debited as `loan_repay`. */
  function LoanRepayStep(s: Tables.Store, userId: int, loanId: int, amount: real, now: int)
    : (r: (Tables.Store, Result<real, Refusal>))
    ensures !(loanId in s.loans && s.loans[loanId].userId == userId) <==> r == (s, Failure(LoanNotFound))
    ensures r.1.Success? ==> r.1.value <= s.loans[loanId].remaining && (r.1.value == amount || r.1.value == s.loans[loanId].remaining)
  {
    if !(loanId in s.loans && s.loans[loanId].userId == userId) then (s, Failure(LoanNotFound))
    else
      var pay := if amount > s.loans[loanId].remaining then s.loans[loanId].remaining else amount;
      var s1 := Tables.RepayLoan(s, userId, loanId, pay);
      (Tables.UpdatePlayerBalance(s1, userId, -pay, "loan_repay", "Погашение кредита #" + IntToString(loanId), now), Success(pay))
  }

  /** With a non-negative payment on a sound loan book: the balance falls by exactly the clamped
      payment, which never exceeds the debt; an active loan's remainder falls by it and the
      loan closes exactly when it is paid off; a closed loan costs nothing; the book stays
      sound. */
  lemma RepayQuickClamps(s: Tables.Store, userId: int, loanId: int, amount: real, now: int)
    requires amount >= 0.0 && Tables.LoansSound(s)
    requires LoanRepayStep(s, userId, loanId, amount, now).1.Success?
    ensures var (t, res) := LoanRepayStep(s, userId, loanId, amount, now);
      var l, m := s.loans[loanId], t.loans[loanId];
      && 0.0 <= res.value <= l.remaining
      && res.value == (if amount <= l.remaining then amount else l.remaining)
      && BalanceOf(t, userId) == BalanceOf(s, userId) - (if userId in s.players then res.value else 0.0)
      && (l.status == LoanActive ==> m.remaining == l.remaining - res.value && (m.status == LoanClosed <==> res.value == l.remaining))
      && (l.status == LoanClosed ==> res.value == 0.0 && m == l)
      && Tables.LoansSound(t)
  {
  }

  // ---------------------------------------------------------------------------------------
  // take_preset_loan
  // ---------------------------------------------------------------------------------------

  /** `take_preset_loan`: the eligibility verdict refuses first; an approved loan is stored,
      due `termDays` days from now, and its amount credited as `loan`. The id the store hands
      out is returned. */
  function TakePresetLoanStep(s: Tables.Store, userId: int, amount: real, termDays: int, now: int)
    : (r: (Tables.Store, Result<int, Refusal>))
    ensures r.1.Success? ==> r.1.value == s.nextLoanId
  {
    if userId !in s.players then (s, Failure(PlayerMissing))
    else
      var player := s.players[userId];
      var eligibility := AdvancedFeatures.LoanEligibility(player, amount);
      if !eligibility.Eligible? then (s, Failure(NotEligible(eligibility)))
      else
        match AdvancedFeatures.ProcessLoan(player, amount, termDays, now)
        case Failure(e) => (s, Failure(NotEligible(e)))
        case Success(info) =>
          var loanId := s.nextLoanId;
          var s1 := Tables.CreateLoan(s, userId, amount, info.interestRate, termDays, info.issuedAt, info.dueDate);
          (Tables.UpdatePlayerBalance(s1, userId, amount, "loan", "Кредит #" + IntToString(loanId), now), Success(loanId))
  }

  /** A loan is granted exactly when the player is eligible. Then it is stored active, owing its
      full amount at a tier rate of at most 4% a day, due `termDays` days from now, and the
      amount — at most twice the balance — is credited. Otherwise nothing changes. */
  lemma PresetLoanIffEligible(s: Tables.Store, userId: int, amount: real, termDays: int, now: int)
    requires userId in s.players
    ensures var (t, res) := TakePresetLoanStep(s, userId, amount, termDays, now);
      && (res.Success? <==> AdvancedFeatures.LoanEligibility(s.players[userId], amount).Eligible?)
      && (res.Failure? ==> t == s && res.error == NotEligible(AdvancedFeatures.LoanEligibility(s.players[userId], amount)))
      && (res.Success? ==>
            var loan := t.loans[res.value];
            && loan.userId == userId && loan.amount == amount && loan.remaining == amount && loan.status == LoanActive
            && loan.interestRate in {0.02, 0.03, 0.04}
            && loan.issuedAt == now && loan.dueDate == now + termDays * AdvancedFeatures.SecondsPerDay
            && amount <= 2.0 * s.players[userId].balance
            && t.players[userId].balance == s.players[userId].balance + amount)
  {
  }

  // ---------------------------------------------------------------------------------------
  // take_investment
  // ---------------------------------------------------------------------------------------

  const InvestmentTermDays: int := 3

  /** `take_investment`: refused when the amount exceeds the balance; otherwise an active
      investment maturing in three days is stored with the strategy's expected return (0.12 for
      an unknown strategy) and the amount is debited as `investment`. */
  function TakeInvestmentStep(s: Tables.Store, userId: int, strategy: string, amount: real, now: int)
    : (r: (Tables.Store, Result<int, Refusal>))
    ensures r.1.Failure? ==> r.0 == s
    ensures r.1.Success? ==> r.1.value == s.nextInvestmentId
  {
    if userId !in s.players then (s, Failure(PlayerMissing))
    else if amount > s.players[userId].balance then (s, Failure(InsufficientFunds))
    else
      var expected := amount * AdvancedFeatures.InvestmentReturn(strategy).GetOr(0.12);
      var maturesAt := now + InvestmentTermDays * AdvancedFeatures.SecondsPerDay;
      var investmentId := s.nextInvestmentId;
      var s1 := Tables.CreateInvestment(s, userId, None, strategy, amount, expected, maturesAt, now);
      (Tables.UpdatePlayerBalance(s1, userId, -amount, "investment", "Инвестиция #" + IntToString(investmentId), now), Success(investmentId))
  }

  /** An investment is placed exactly when the balance covers it, so the balance never goes
      negative through it; the row starts active at its full amount with the expected return of
      its strategy, matures in three days, and withdrawing it at once pays 95% back. */
  lemma TakeInvestmentCovered(s: Tables.Store, userId: int, strategy: string, amount: real, now: int)
    requires userId in s.players && s.players[userId].balance >= 0.0
    ensures var (t, res) := TakeInvestmentStep(s, userId, strategy, amount, now);
      && (res.Success? <==> amount <= s.players[userId].balance)
      && (res.Success? ==>
            var inv := t.investments[res.value];
            && t.players[userId].balance == s.players[userId].balance - amount >= 0.0
            && inv.userId == userId && inv.status == Active && inv.currentValue == amount
            && inv.expectedReturn == amount * AdvancedFeatures.InvestmentReturn(strategy).GetOr(0.12)
            && inv.maturesAt == now + 3 * 86400
            && (amount >= 0.0 ==> Tables.WithdrawPayout(t, userId, res.value) == Some((amount * 0.95, Active))))
  {
  }

  // ---------------------------------------------------------------------------------------
  // inv_withdraw
  // ---------------------------------------------------------------------------------------

  /** Withdrawing one row keeps the price draws covering the rows still active. */
  lemma WithdrawKeepsDrawsCover(s: Tables.Store, userId: int, investmentId: int, ratios: map<int, real>, t: Tables.Store)
    requires Tables.DrawsCover(s, ratios)
    requires t.investments == Tables.WithdrawInvestment(s, userId, investmentId).investments
    ensures Tables.DrawsCover(t, ratios)
  {
    forall id | id in t.investments && t.investments[id].status == Active
      ensures id in ratios && -Tables.EffectiveVolatility(t.investments[id]) <= ratios[id] <= Tables.EffectiveVolatility(t.investments[id])
    {
      assert t.investments[id] == s.investments[id];
    }
  }

  /** `inv_withdraw`: the payout of `withdraw_investment` is credited as `investment_withdraw`
      and every active price then takes one step of its random walk. */
  function InvWithdrawStep(s: Tables.Store, userId: int, investmentId: int, ratios: map<int, real>, now: int)
    : (r: (Tables.Store, Result<(real, InvestmentStatus), Refusal>))
    requires Tables.DrawsCover(s, ratios)
    ensures Tables.WithdrawPayout(s, userId, investmentId).None? <==> r == (s, Failure(InvestmentUnavailable))
    ensures r.1.Success? ==> Some(r.1.value) == Tables.WithdrawPayout(s, userId, investmentId)
  {
    match Tables.WithdrawPayout(s, userId, investmentId)
    case None => (s, Failure(InvestmentUnavailable))
    case Some(res) =>
      var s1 := Tables.WithdrawInvestment(s, userId, investmentId);
      var s2 := Tables.UpdatePlayerBalance(s1, userId, res.0, "investment_withdraw", "Вывод по инвестиции #" + IntToString(investmentId), now);
      WithdrawKeepsDrawsCover(s, userId, investmentId, ratios, s2);
      (Tables.UpdateInvestmentPrices(s2, ratios, now), Success(res))
  }

  /** A withdrawal credits its payout, ends the row as withdrawn for good (a second attempt by
      anyone is refused and changes nothing) and keeps every value non-negative. */
  lemma InvWithdrawPaysOnce(s: Tables.Store, userId: int, investmentId: int, ratios: map<int, real>, now: int,
                            otherUser: int, ratios2: map<int, real>, later: int)
    requires Tables.DrawsCover(s, ratios) && Tables.ValuesSound(s)
    requires InvWithdrawStep(s, userId, investmentId, ratios, now).1.Success?
    ensures var (t, res) := InvWithdrawStep(s, userId, investmentId, ratios, now);
      && BalanceOf(t, userId) == BalanceOf(s, userId) + (if userId in s.players then res.value.0 else 0.0)
      && t.investments[investmentId].status == Withdrawn
      && Tables.ValuesSound(t)
      && (Tables.DrawsCover(t, ratios2) ==> InvWithdrawStep(t, otherUser, investmentId, ratios2, later) == (t, Failure(InvestmentUnavailable)))
  {
    var res := Tables.WithdrawPayout(s, userId, investmentId).value;
    var s1 := Tables.WithdrawInvestment(s, userId, investmentId);
    var s2 := Tables.UpdatePlayerBalance(s1, userId, res.0, "investment_withdraw", "Вывод по инвестиции #" + IntToString(investmentId), now);
    WithdrawKeepsDrawsCover(s, userId, investmentId, ratios, s2);
    assert Tables.ValuesSound(s2);
    Tables.RepriceKeepsInvariants(s2, ratios, now);
    Tables.RepriceTouchesOnlyActive(s2, ratios, now, investmentId);
  }

  // ---------------------------------------------------------------------------------------
  // process_business_name
  // ---------------------------------------------------------------------------------------

  const MaxBusinesses: int := 2

  /** `process_business_name` for a business type chosen earlier in the conversation: the
      stripped name must have two characters, the type must exist and the player must own fewer
      than two businesses; the business is then added and ten days of its base expenses are
      debited as `business_startup`. */
  function ProcessBusinessNameStep(s: Tables.Store, userId: int, text: string, businessType: string, now: int)
    : (r: (Tables.Store, Result<int, Refusal>))
    ensures r.1.Failure? ==> r.0 == s
    ensures r.1.Success? ==> r.1.value == s.nextBusinessId
  {
    var name := Strip(text);
    if |name| < 2 then (s, Failure(NameTooShort))
    else
      match BusinessTypeOf(businessType)
      case None => (s, Failure(UnknownBusinessType))
      case Some(info) =>
        if |Tables.BusinessesOf(s, userId)| >= MaxBusinesses then (s, Failure(BusinessLimit))
        else
          var businessId := s.nextBusinessId;
          var s1 := Tables.AddBusiness(s, userId, businessType, name, info.baseIncome, info.baseExpenses);
          var startupCost := info.baseExpenses * 10.0;
          (Tables.UpdatePlayerBalance(s1, userId, -startupCost, "business_startup", "Запуск бизнеса '" + name + "'", now), Success(businessId))
  }

  /** Nobody owns more than two businesses through this handler: a new one is listed last among
      the player's, the startup cost is ten times the type's base expenses, and a third
      business is refused. */
  lemma BusinessLimitHolds(s: Tables.Store, userId: int, text: string, businessType: string, now: int)
    requires Tables.Valid(s)
    ensures var (t, res) := ProcessBusinessNameStep(s, userId, text, businessType, now);
      && Tables.Valid(t)
      && (|Tables.BusinessesOf(s, userId)| <= MaxBusinesses ==> |Tables.BusinessesOf(t, userId)| <= MaxBusinesses)
      && (res.Success? ==>
            var b := t.businesses[res.value];
            && Tables.BusinessesOf(t, userId) == Tables.BusinessesOf(s, userId) + [b]
            && b.name == Strip(text) && |b.name| >= 2 && b.ownerId == userId && b.improvements == []
            && BalanceOf(t, userId) == BalanceOf(s, userId) - (if userId in s.players then BusinessTypeOf(businessType).value.baseExpenses * 10.0 else 0.0))
  {
    var (t, res) := ProcessBusinessNameStep(s, userId, text, businessType, now);
    if res.Success? {
      var info := BusinessTypeOf(businessType).value;
      var s1 := Tables.AddBusiness(s, userId, businessType, Strip(text), info.baseIncome, info.baseExpenses);
      Tables.AddBusinessListsIt(s, userId, businessType, Strip(text), info.baseIncome, info.baseExpenses, userId);
      assert t.businesses == s1.businesses && t.nextBusinessId == s1.nextBusinessId;
      Tables.OwnedBelowAgree(s1, t, userId, t.nextBusinessId);
    }
  }

  // ---------------------------------------------------------------------------------------
  // buy_improvement
  // ---------------------------------------------------------------------------------------

  /** `next((b for b in businesses if b['id'] == business_id), None)`: the first match. */
  function FindBusiness(bs: seq<Business>, businessId: int): (r: Option<Business>)
    ensures r.None? <==> forall b | b in bs :: b.id != businessId
    ensures r.Some? ==> r.value in bs && r.value.id == businessId
  {
    if bs == [] then None
    else if bs[0].id == businessId then Some(bs[0])
    else FindBusiness(bs[1..], businessId)
  }

  /** In a valid store the handler's search finds exactly the caller's row with that id. */
  lemma FindOwnedBusiness(s: Tables.Store, userId: int, businessId: int)
    requires Tables.Valid(s)
    ensures FindBusiness(Tables.BusinessesOf(s, userId), businessId)
      == if businessId in s.businesses && s.businesses[businessId].ownerId == userId then Some(s.businesses[businessId]) else None
  {
    if businessId in s.businesses && s.businesses[businessId].ownerId == userId {
      Tables.BusinessesOfComplete(s, userId, businessId);
    }
  }

  /** `buy_improvement`: the caller's business must exist and lack the improvement, and the
      balance must cover its cost; the business row then takes `apply_improvement`'s income,
      expenses and list, and the cost is debited as `improvement`. */
  function BuyImprovementStep(s: Tables.Store, userId: int, businessId: int, improvementId: string, now: int)
    : (r: (Tables.Store, Result<GameLogic.Applied, Refusal>))
    ensures r.1.Failure? ==> r.0 == s
  {
    match FindBusiness(Tables.BusinessesOf(s, userId), businessId)
    case None => (s, Failure(BusinessNotFound))
    case Some(business) =>
      if improvementId in business.improvements then (s, Failure(AlreadyBought))
      else if userId !in s.players then (s, Failure(PlayerMissing))
      else if !GameLogic.CanAffordImprovement(s.players[userId].balance, improvementId) then (s, Failure(CannotAfford))
      else
        match GameLogic.ApplyImprovement(business, improvementId)
        case Failure(e) => (s, Failure(NotApplied(e)))
        case Success(a) =>
          var s1 := Tables.UpdateBusiness(s, businessId, Some(a.newIncome), Some(a.newExpenses), None, Some(a.newImprovements));
          var title := match ImprovementOf(improvementId) case Some(imp) => imp.name case None => "";
          (Tables.UpdatePlayerBalance(s1, userId, -a.cost, "improvement", "Улучшение " + title, now), Success(a))
  }

  /** A purchase never overdraws: the balance falls by the table cost and stays non-negative;
      the row gets the id appended, stays free of duplicates, and the same purchase again is
      refused. */
  lemma BuyImprovementOnce(s: Tables.Store, userId: int, businessId: int, improvementId: string, now: int, later: int)
    requires Tables.Valid(s)
    requires BuyImprovementStep(s, userId, businessId, improvementId, now).1.Success?
    ensures var (t, res) := BuyImprovementStep(s, userId, businessId, improvementId, now);
      var b, c := s.businesses[businessId], t.businesses[businessId];
      && res.value.cost == ImprovementOf(improvementId).value.cost
      && t.players[userId].balance == s.players[userId].balance - res.value.cost >= 0.0
      && c.improvements == b.improvements + [improvementId]
      && (GameLogic.Distinct(b.improvements) ==> GameLogic.Distinct(c.improvements))
      && BuyImprovementStep(t, userId, businessId, improvementId, later) == (t, Failure(AlreadyBought))
  {
    FindOwnedBusiness(s, userId, businessId);
    var b := s.businesses[businessId];
    var (t, res) := BuyImprovementStep(s, userId, businessId, improvementId, now);
    if GameLogic.Distinct(b.improvements) {
      GameLogic.ApplyImprovementKeepsDistinct(b, improvementId);
    }
    assert Tables.Valid(t);
    FindOwnedBusiness(t, userId, businessId);
  }

  // ---------------------------------------------------------------------------------------
  // collect_daily_income
  // ---------------------------------------------------------------------------------------

  /** What a collection reports: the day's figures, and the level-up if one was applied. */
  datatype DailyReport = DailyReport(progress: GameLogic.Progress, levelUp: Option<GameLogic.LevelUp>)

  /** `collect_daily_income`: refused without businesses; otherwise the day's net income is
      booked as `daily_income`, the experience added, and — only when the player row exists —
      at most one level-up applied. */
  function CollectDailyIncomeStep(s: Tables.Store, userId: int, now: int): (r: (Tables.Store, Result<DailyReport, Refusal>))
    ensures Tables.BusinessesOf(s, userId) == [] <==> r == (s, Failure(NoBusinesses))
    ensures r.1.Success? ==> r.1.value.progress == GameLogic.DailyProgress(Tables.BusinessesOf(s, userId))
  {
    var bs := Tables.BusinessesOf(s, userId);
    if bs == [] then (s, Failure(NoBusinesses))
    else
      var progress := GameLogic.DailyProgress(bs);
      var s1 := Tables.UpdatePlayerBalance(s, userId, progress.netIncome, "daily_income", "Ежедневный доход", now);
      var (s2, newExp) := Tables.AddExperience(s1, userId, progress.experienceGained, now);
      if newExp.None? then (s2, Success(DailyReport(progress, None)))
      else
        var player := s2.players[userId];
        if !GameLogic.CanLevelUp(player.experience, player.level) then (s2, Success(DailyReport(progress, None)))
        else
          match GameLogic.LevelUpPlayer(player)
          case None => (s2, Success(DailyReport(progress, None)))
          case Some(lu) =>
            (Tables.ApplyLevelUp(s2, userId, lu.newLevel, lu.remainingExperience, lu.bonuses.balanceBonus, lu.bonuses.popularityBonus, now),
             Success(DailyReport(progress, Some(lu))))
  }

  /** One collection writes exactly one audit row, for the net income, and raises the level by
      at most one: the balance moves by the net income plus the level-up bonus, which bypasses
      the ledger, and the experience left over is what exceeded the old threshold. */
  lemma DailyIncomeOneLevelAtMost(s: Tables.Store, userId: int, now: int)
    requires userId in s.players
    requires CollectDailyIncomeStep(s, userId, now).1.Success?
    ensures var (t, res) := CollectDailyIncomeStep(s, userId, now);
      var p, q, net := s.players[userId], t.players[userId], res.value.progress.netIncome;
      var xp := p.experience + res.value.progress.experienceGained;
      && t.transactions == s.transactions + [Transaction(userId, None, "daily_income", net, "Ежедневный доход", now)]
      && (res.value.levelUp.None? ==> q.level == p.level && q.experience == xp && q.balance == p.balance + net)
      && (res.value.levelUp.Some? ==>
            && xp >= p.level * 1000
            && q.level == p.level + 1 && q.experience == xp - p.level * 1000
            && q.balance == p.balance + net + (p.level + 1) as real * 1000.0)
      && Tables.Unbooked(q) - Tables.Unbooked(p) == (if res.value.levelUp.Some? then (p.level + 1) as real * 1000.0 else 0.0)
  {
  }
}
