/**
 Watching a cloud deployment until it is published, fails or takes too long, with one renewal of the token.
 */
module Polling {
  datatype DeployStatus = NotCreated | Building | Published | DeployFailed

  predicate Final(s: DeployStatus) {
    s.Published? || s.DeployFailed?
  }

  /** Empty text stands for an absent one. */
  datatype Deployment = Deployment(service: string, status: DeployStatus, url: string, logs: string, error: string)

  datatype Answer =
    | Report(status: DeployStatus, url: string, detail: string)
    | Unauthorized
    | Broken

  /** What the provider gives for a refresh token; an empty token stands for none given. */
  datatype Renewal = Renewed(access: string, refresh: string) | Refused

  datatype Exit = Returned | Raised

  /** How a round of the watch ends: with another try, after a pause or at once, or with the end of the watch. */
  datatype Next = AfterSleep | AtOnce | Over(exit: Exit)

  /** The answers of the provider, call by call; `saves(n)` says whether the `n`-th save works. */
  datatype World = World(answers: nat -> Answer, renewal: Renewal, saves: nat -> bool)

  datatype Credentials = Credentials(access: string, refresh: string)

  function Renew(c: Credentials, r: Renewal): Credentials
    requires r.Renewed?
  {
    Credentials(r.access, if r.refresh != "" then r.refresh else c.refresh)
  }

  /**
   A failure is always told: with the provider's words, unless these are a link, which goes to the build log alone.
   A report that is no failure clears the error and keeps the log.
   */
  lemma FailureIsTold(d: Deployment, r: Answer)
    requires r.Report?
    ensures var d' := Updated(d, r);
            if r.status.DeployFailed? then
              && d'.error != "" && d'.logs == (if r.detail != "" then r.detail else d.logs)
              && (r.detail != "" && !IsLink(r.detail) ==> d'.error == r.detail)
              && (r.detail == "" && d.error != "" ==> d'.error == d.error)
              && (IsLink(r.detail) && d.error == "" ==> d'.error == SEE_LOGS)
            else d'.error == "" && d'.logs == d.logs
  {
  }

  /** New credentials: the new access token, and the new refresh token if one was given. */
  ghost predicate AreRenewed(c': Credentials, c: Credentials, r: Renewal) {
    && r.Renewed? && c'.access == r.access
    && c'.refresh == if r.refresh == "" then c.refresh else r.refresh
  }

  /** Whether one of the first `k` answers turned the token away. */
  ghost predicate RejectedBefore(w: World, k: nat) {
    exists n :: 0 <= n < k && w.answers(n).Unauthorized?
  }

  /** The token call `k` is to be made with. */
  ghost function TokenAt(w: World, first: string, k: nat): string {
    if RejectedBefore(w, k) && w.renewal.Renewed? then w.renewal.access else first
  }

  /** The last URL reported in the first `k` answers, or the one there was. */
  function LatestUrl(w: World, first: string, k: nat): string {
    if k == 0 then first
    else if w.answers(k - 1).Report? && w.answers(k - 1).url != "" then w.answers(k - 1).url
    else LatestUrl(w, first, k - 1)
  }

  /** Taking over a report, when it changes something, leaves the URL reported last. */
  lemma UrlTakenOver(d: Deployment, r: Answer)
    requires r.Report?
    ensures (if Changed(d, r) then Updated(d, r) else d).url == if r.url != "" then r.url else d.url
  {
  }

  /** A report that lets the watch go on, or a token turned away. */
  predicate GoesOn(a: Answer) {
    a.Unauthorized? || (a.Report? && !Final(a.status))
  }

  /** The token cannot be renewed, or not once more after `k` answers. */
  ghost predicate NoRenewal(w: World, c: Credentials, k: nat) {
    RejectedBefore(w, k) || c.refresh == "" || w.renewal.Refused? || w.renewal.access == ""
  }

  /** The last of `k` answers is a reason to give up. */
  ghost predicate Hopeless(w: World, c: Credentials, k: nat) {
    k > 0 && (w.answers(k - 1).Broken? || (w.answers(k - 1).Unauthorized? && NoRenewal(w, c, k - 1)))
  }

  lemma WhenHopeless(w: World, c: Credentials, k: nat)
    ensures !Hopeless(w, c, 0)
    ensures Hopeless(w, c, k + 1) <==> w.answers(k).Broken? || (w.answers(k).Unauthorized? && NoRenewal(w, c, k))
  {
  }

  /** Call `k` is made with the token it should, and the first `n` answers let the watch go on. */
  ghost predicate CallsFit(w: World, first: string, tokens: seq<string>, n: nat) {
    && (forall k :: 0 <= k < |tokens| ==> tokens[k] == TokenAt(w, first, k))
    && (forall k :: 0 <= k < n ==> GoesOn(w.answers(k)))
  }

  lemma NoCalls(w: World, first: string)
    ensures CallsFit(w, first, [], 0)
  {
  }

  lemma CallsMore(w: World, first: string, tokens: seq<string>, token: string)
    requires CallsFit(w, first, tokens, |tokens|) && token == TokenAt(w, first, |tokens|)
    ensures CallsFit(w, first, tokens + [token], |tokens|)
    ensures GoesOn(w.answers(|tokens|)) ==> CallsFit(w, first, tokens + [token], |tokens| + 1)
  {
  }

  lemma CallsFewer(w: World, first: string, tokens: seq<string>)
    requires CallsFit(w, first, tokens, |tokens|)
    ensures tokens != [] ==> CallsFit(w, first, tokens, |tokens| - 1)
  {
  }

  predicate IsLink(s: string) {
    (|s| >= 7 && s[..7] == "http://") || (|s| >= 8 && s[..8] == "https://")
  }

  predicate Changed(d: Deployment, r: Answer)
    requires r.Report?
  {
    r.status != d.status || r.url != d.url || (r.status.DeployFailed? && r.detail != d.error)
  }

  const SEE_LOGS := "Fallo durante el despliegue en Railway. Revisa los registros de compilación."

  /** The record after a report that changed something: the URL is kept when none is reported. */
  function Updated(d: Deployment, r: Answer): (d': Deployment)
    requires r.Report?
    ensures d'.status == r.status && d'.service == d.service
    ensures d.url != "" ==> d'.url != ""
  {
    var failed := r.status.DeployFailed?;
    var error :=
      if !failed then ""
      else if r.detail != "" && !IsLink(r.detail) then r.detail
      else if d.error != "" then d.error
      else if r.detail != "" then SEE_LOGS
      else "Fallo durante el despliegue en Railway.";
    d.(status := r.status, url := if r.url != "" then r.url else d.url,
       logs := if failed && r.detail != "" then r.detail else d.logs, error := error)
  }

  /** The saves since the `from`-th all worked. */
  ghost predicate SavesWorked(w: World, from: nat, to: nat) {
    forall n :: from <= n < to ==> w.saves(n)
  }

  /** Of the saves since the `from`-th, the last one failed and no other. */
  ghost predicate LastSaveFailed(w: World, from: nat, to: nat) {
    from < to && !w.saves(to - 1) && SavesWorked(w, from, to - 1)
  }

  lemma NoSaves(w: World, from: nat)
    ensures SavesWorked(w, from, from)
  {
  }

  lemma OneSave(w: World, from: nat)
    ensures if w.saves(from) then SavesWorked(w, from, from + 1) else LastSaveFailed(w, from, from + 1)
  {
  }

  lemma MoreSaves(w: World, from: nat, mid: nat, to: nat)
    requires from <= mid <= to && SavesWorked(w, from, mid)
    ensures SavesWorked(w, mid, to) <==> SavesWorked(w, from, to)
    ensures LastSaveFailed(w, mid, to) ==> LastSaveFailed(w, from, to)
    ensures SavesWorked(w, from, to) ==> !LastSaveFailed(w, from, to)
  {
  }

  class Monitor {
    var stored: Deployment
    var credentials: Credentials
    var tokens: seq<string>
    var saveCount: nat
    var renewals: nat
    var sleeps: nat

    constructor (d: Deployment, c: Credentials)
      ensures stored == d && credentials == c && tokens == [] && saveCount == 0 && renewals == 0 && sleeps == 0
    {
      stored, credentials, tokens, saveCount, renewals, sleeps := d, c, [], 0, 0, 0;
    }

    method Save(w: World, d: Deployment) returns (exit: Exit)
      modifies `stored, `saveCount
      ensures exit == if w.saves(old(saveCount)) then Returned else Raised
      ensures saveCount == old(saveCount) + 1
      ensures stored == if exit.Returned? then d else old(stored)
    {
      exit := if w.saves(saveCount) then Returned else Raised;
      saveCount := saveCount + 1;
      if exit.Returned? {
        stored := d;
      }
    }

    /** A report taken over into the record, when it says something new. */
    method Record(w: World, d: Deployment, answer: Answer) returns (d': Deployment, exit: Exit)
      requires answer.Report? && d == stored
      modifies `stored, `saveCount
      ensures exit.Returned? ==> stored == d' && stored.status == answer.status
      ensures exit.Returned? ==> stored == (if Changed(d, answer) then Updated(d, answer) else d)
      ensures exit.Raised? ==> stored == old(stored) && LastSaveFailed(w, old(saveCount), saveCount)
      ensures exit.Returned? ==> SavesWorked(w, old(saveCount), saveCount)
      ensures saveCount >= old(saveCount)
      ensures stored.service == old(stored).service && (old(stored).url != "" ==> stored.url != "")
    {
      d' := d;
      exit := Returned;
      if Changed(d, answer) {
        d' := Updated(d, answer);
        exit := Save(w, d');
      }
    }

    /** The renewal inside the loop: the new credentials are stored before they are used. */
    method RenewToken(w: World) returns (exit: Exit)
      modifies `credentials, `saveCount, `renewals
      ensures renewals == old(renewals) + 1
      ensures if w.renewal.Refused? || w.renewal.access == "" then exit.Raised? && saveCount == old(saveCount)
              else
                && saveCount >= old(saveCount)
                && (exit.Returned? ==> SavesWorked(w, old(saveCount), saveCount))
                && (exit.Raised? ==> LastSaveFailed(w, old(saveCount), saveCount))
      ensures credentials == if exit.Returned? then Renew(old(credentials), w.renewal) else old(credentials)
    {
      renewals := renewals + 1;
      if w.renewal.Refused? || w.renewal.access == "" {
        return Raised;
      }
      exit := if w.saves(saveCount) then Returned else Raised;
      saveCount := saveCount + 1;
      if exit.Returned? {
        credentials := Renew(credentials, w.renewal);
      }
    }

    /** A token turned away: it is renewed, once. */
    method TurnedAway(w: World, renewed: bool) returns (next: Next)
      modifies `credentials, `saveCount, `renewals
      ensures next in {AtOnce, Over(Raised)} && saveCount >= old(saveCount)
      ensures next.AtOnce? ==>
                && !renewed && old(credentials).refresh != "" && w.renewal.Renewed? && w.renewal.access != ""
                && renewals == old(renewals) + 1 && AreRenewed(credentials, old(credentials), w.renewal)
                && SavesWorked(w, old(saveCount), saveCount)
      ensures !next.AtOnce? ==>
                && credentials == old(credentials)
                && renewals == old(renewals) + (if renewed || old(credentials).refresh == "" then 0 else 1)
                && if renewed || old(credentials).refresh == "" || w.renewal.Refused? || w.renewal.access == "" then
                     saveCount == old(saveCount)
                   else LastSaveFailed(w, old(saveCount), saveCount)
    {
      if renewed || credentials.refresh == "" {
        return Over(Raised);
      }
      var exit := RenewToken(w);
      next := if exit.Raised? then Over(Raised) else AtOnce;
    }

    /** A report: it is taken over, and ends the watch if it is final. */
    method Reported(w: World, answer: Answer) returns (next: Next)
      requires answer.Report? && !Final(stored.status)
      modifies `stored, `saveCount
      ensures !next.AtOnce? && saveCount >= old(saveCount)
      ensures next != Over(Raised) ==>
                && SavesWorked(w, old(saveCount), saveCount)
                && stored == (if Changed(old(stored), answer) then Updated(old(stored), answer) else old(stored))
                && stored.status == answer.status && next.AfterSleep? == !Final(answer.status)
      ensures next == Over(Raised) ==> stored == old(stored) && LastSaveFailed(w, old(saveCount), saveCount)
      ensures stored.service == old(stored).service && (old(stored).url != "" ==> stored.url != "")
    {
      var d, exit := Record(w, stored, answer);
      next := if exit.Raised? then Over(Raised) else if Final(answer.status) then Over(Returned) else AfterSleep;
    }

    /** One status call, and what its answer leads to. */
    method Round(w: World, token: string, renewed: bool) returns (next: Next)
      requires !Final(stored.status)
      modifies `stored, `credentials, `tokens, `saveCount, `renewals
      ensures tokens == old(tokens) + [token] && saveCount >= old(saveCount)
      ensures stored.service == old(stored).service && (old(stored).url != "" ==> stored.url != "")
      ensures var a := w.answers(|old(tokens)|);
              var stuck := renewed || old(credentials).refresh == "" || w.renewal.Refused? || w.renewal.access == "";
              && (!next.Over? ==>
                    GoesOn(a) && !Final(stored.status) && (if next.AtOnce? then a.Unauthorized? else a.Report?))
              && (next == Over(Returned) ==> a.Report? && Final(a.status) && stored.status == a.status)
              && (next == Over(Raised) ==>
                    if a.Broken? || (a.Unauthorized? && stuck) then saveCount == old(saveCount)
                    else LastSaveFailed(w, old(saveCount), saveCount))
              && (next != Over(Raised) ==>
                    SavesWorked(w, old(saveCount), saveCount) && !a.Broken? && (a.Unauthorized? ==> !stuck))
              && (a.Report? && next != Over(Raised) ==>
                    stored.url == if a.url != "" then a.url else old(stored).url)
              && (!a.Report? ==> stored == old(stored))
              && (if next.AtOnce? then AreRenewed(credentials, old(credentials), w.renewal)
                  else credentials == old(credentials))
              && renewals == old(renewals)
                             + (if a.Unauthorized? && !renewed && old(credentials).refresh != "" then 1 else 0)
    {
      hide SavesWorked, AreRenewed;
      var answer := w.answers(|tokens|);
      tokens := tokens + [token];
      if answer.Broken? {
        return Over(Raised);
      }
      if answer.Unauthorized? {
        next := TurnedAway(w, renewed);
      } else {
        UrlTakenOver(stored, answer);
        next := Reported(w, answer);
      }
    }

    /**
     The polling stage of `MonitorDeploymentStatusUseCase.execute`.  `tokens` lists the token of each status call.
     It asks at most once more than it may try, and every call but the last met a report that is not final or a
     rejected token.  It renews the token exactly if one was rejected and a refresh token is there, once; the first
     token is used until then and the new one after it.  When it returns, the last report was final and the stored
     deployment is published or failed as it says, or all tries are used up and it failed for that reason; its URL is
     the last one reported, or the one it had.  It raises only if the last answer was a reason to give up or its last
     save failed, and then it always does.
     */
    method Poll(w: World, max: nat) returns (exit: Exit)
      requires !Final(stored.status) && tokens == [] && renewals == 0 && sleeps == 0
      modifies this
      ensures |tokens| <= max + 1 && sleeps <= max && |tokens| <= sleeps + renewals + 1 && (max > 0 ==> tokens != [])
      ensures tokens != [] ==> CallsFit(w, old(credentials).access, tokens, |tokens| - 1)
      ensures renewals == if RejectedBefore(w, |tokens|) && old(credentials).refresh != "" then 1 else 0
      ensures credentials == old(credentials) || AreRenewed(credentials, old(credentials), w.renewal)
      ensures exit.Returned? ==>
                && SavesWorked(w, old(saveCount), saveCount)
                && if sleeps < max then
                     && tokens != [] && w.answers(|tokens| - 1).Report? && Final(w.answers(|tokens| - 1).status)
                     && stored.status == w.answers(|tokens| - 1).status
                   else stored.status.DeployFailed? && stored.error == "timeout"
      ensures exit.Returned? && renewals == 1 ==> AreRenewed(credentials, old(credentials), w.renewal)
      ensures exit.Raised? <==>
                Hopeless(w, old(credentials), |tokens|) || LastSaveFailed(w, old(saveCount), saveCount)
      ensures exit.Returned? ==> stored.url == LatestUrl(w, old(stored).url, |tokens|)
      ensures old(stored).url != "" ==> stored.url != ""
      ensures stored.service == old(stored).service
    {
      hide Updated, Changed, TokenAt, RejectedBefore, LatestUrl, SavesWorked, GoesOn, Final, Hopeless, CallsFit;
      TokenStep(w, credentials.access, 0);
      UrlStep(w, stored.url, 0);
      NoSaves(w, saveCount);
      NoCalls(w, credentials.access);
      var token, renewed, attempts := credentials.access, false, 0;
      while attempts < max
        invariant attempts <= max && sleeps == attempts
        invariant renewals == (if renewed then 1 else 0) && |tokens| == attempts + renewals
        invariant !Final(stored.status) && stored.service == old(stored).service
        invariant stored.url == LatestUrl(w, old(stored).url, |tokens|)
        invariant old(stored).url != "" ==> stored.url != ""
        invariant CallsFit(w, old(credentials).access, tokens, |tokens|)
        invariant renewed == RejectedBefore(w, |tokens|) && token == TokenAt(w, old(credentials).access, |tokens|)
        invariant attempts == max && tokens != [] ==> w.answers(|tokens| - 1).Report?
        invariant saveCount >= old(saveCount) && SavesWorked(w, old(saveCount), saveCount)
        invariant if renewed then old(credentials).refresh != "" && AreRenewed(credentials, old(credentials), w.renewal)
                  else credentials == old(credentials)
        decreases max - attempts, if renewed then 0 else 1
      {
        TokenStep(w, old(credentials).access, |tokens|);
        UrlStep(w, old(stored).url, |tokens|);
        WhenHopeless(w, old(credentials), |tokens|);
        CallsMore(w, old(credentials).access, tokens, token);
        ghost var saved := saveCount;
        var next := Round(w, token, renewed);
        MoreSaves(w, old(saveCount), saved, saveCount);
        if next.Over? {
          return next.exit;
        }
        if next.AtOnce? {
          token, renewed := credentials.access, true;
        } else {
          sleeps := sleeps + 1;
          attempts := attempts + 1;
        }
      }
      WhenHopeless(w, old(credentials), if |tokens| > 0 then |tokens| - 1 else 0);
      CallsFewer(w, old(credentials).access, tokens);
      ghost var saved := saveCount;
      exit := Save(w, stored.(status := DeployFailed, error := "timeout"));
      OneSave(w, saved);
      MoreSaves(w, old(saveCount), saved, saveCount);
    }

    /** `execute`: it does nothing unless there is a service to watch, not final yet, and a token to ask with. */
    method Execute(w: World, found: bool, linked: bool, decrypts: bool, max: nat) returns (exit: Exit)
      requires tokens == [] && renewals == 0 && sleeps == 0
      modifies this
      ensures !found || stored.service == "" || Final(old(stored).status) || !linked || !decrypts ==>
                stored == old(stored) && tokens == []
      ensures !found || stored.service == "" || Final(old(stored).status) || !linked ==> exit.Returned?
      ensures found && stored.service != "" && !Final(old(stored).status) && linked && !decrypts ==> exit.Raised?
      ensures found && stored.service != "" && linked && exit.Returned? ==> Final(stored.status)
      ensures found && stored.service != "" && !Final(old(stored).status) && linked && decrypts && max > 0 ==>
                tokens != [] && tokens[0] == old(credentials).access
      ensures old(stored).url != "" ==> stored.url != ""
      ensures |tokens| <= max + 1
    {
      TokenStep(w, credentials.access, 0);
      if !found || stored.service == "" {
        return Returned;
      }
      if Final(stored.status) {
        return Returned;
      }
      if !linked {
        return Returned;
      }
      if !decrypts {
        return Raised;
      }
      exit := Poll(w, max);
    }
  }

  lemma UrlStep(w: World, first: string, k: nat)
    ensures LatestUrl(w, first, 0) == first
    ensures LatestUrl(w, first, k + 1)
            == if w.answers(k).Report? && w.answers(k).url != "" then w.answers(k).url else LatestUrl(w, first, k)
  {
  }

  lemma TokenStep(w: World, first: string, k: nat)
    ensures !RejectedBefore(w, 0) && TokenAt(w, first, 0) == first
    ensures RejectedBefore(w, k + 1) <==> w.answers(k).Unauthorized? || RejectedBefore(w, k)
    ensures !w.answers(k).Unauthorized? ==> TokenAt(w, first, k + 1) == TokenAt(w, first, k)
    ensures w.answers(k).Unauthorized? && w.renewal.Renewed? ==> TokenAt(w, first, k + 1) == w.renewal.access
  {
  }
}
