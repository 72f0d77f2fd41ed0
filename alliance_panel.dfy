/** The alliance screen (components/AllianceManagement.tsx): the player's
  * alliance and the others, the formation form, and the competitors that can
  * be invited. */
module AlliancePanel {
  import opened Common
  import opened Model
  import Commands

  const FormationCost: real := 100000000.0

  /** The listed alliance whose id is the player's alliance id: without an id
    * nothing matches. */
  function PlayerAlliance(p: Player, alliances: seq<Alliance>): (r: Option<Alliance>)
    ensures r.Some? ==> r.value in alliances && p.allianceId == Some(r.value.id)
    ensures r.None? ==> forall a :: a in alliances ==> p.allianceId != Some(a.id)
  {
    if p.allianceId.None? then None else FindAlliance(alliances, p.allianceId.value)
  }

  predicate NotPlayers(p: Player, a: Alliance) { p.allianceId != Some(a.id) }

  function OtherAlliances(p: Player, alliances: seq<Alliance>): seq<Alliance> {
    Filter(alliances, (a: Alliance) => NotPlayers(p, a))
  }

  /** The two sections split the alliance list by the player's alliance id:
    * an alliance is listed among the others exactly when its id is not the
    * player's, and the player's own alliance is never among them. */
  lemma AlliancesSplit(p: Player, alliances: seq<Alliance>, a: Alliance)
    requires a in alliances
    ensures a in OtherAlliances(p, alliances) <==> p.allianceId != Some(a.id)
    ensures PlayerAlliance(p, alliances).Some? ==> PlayerAlliance(p, alliances).value !in OtherAlliances(p, alliances)
    ensures PlayerAlliance(p, alliances).None? ==> a in OtherAlliances(p, alliances)
  {
  }

  // ---------------------------------------------------------------------
  // Forming an alliance

  predicate CanAffordFormation(cash: real) { cash >= FormationCost }

  /** The characters String.prototype.trim removes (the ASCII ones). */
  predicate IsSpace(c: char) {
    c == ' ' || c == '\t' || c == '\n' || c == '\r' || c == '\U{B}' || c == '\U{C}'
  }

  function TrimStart(s: string): (r: string)
    ensures |r| <= |s| && r == s[|s| - |r|..]
    ensures |r| > 0 ==> !IsSpace(r[0])
    ensures forall k :: 0 <= k < |s| - |r| ==> IsSpace(s[k])
  {
    if |s| > 0 && IsSpace(s[0]) then TrimStart(s[1..]) else s
  }

  function TrimEnd(s: string): (r: string)
    ensures |r| <= |s| && r == s[..|r|]
    ensures |r| > 0 ==> !IsSpace(r[|r| - 1])
    ensures forall k :: |r| <= k < |s| ==> IsSpace(s[k])
  {
    if |s| > 0 && IsSpace(s[|s| - 1]) then TrimEnd(s[..|s| - 1]) else s
  }

  /** trim: the text without its leading and trailing white space. It is
    * empty exactly when the text is all white space. */
  function Trim(s: string): (r: string)
    ensures |r| > 0 ==> !IsSpace(r[0]) && !IsSpace(r[|r| - 1])
    ensures r == "" <==> forall k :: 0 <= k < |s| ==> IsSpace(s[k])
  {
    var t := TrimStart(s);
    var r := TrimEnd(t);
    assert r != "" ==> exists k :: 0 <= k < |s| && !IsSpace(s[k]) by {
      if r != "" {
        assert r[0] == t[0] == s[|s| - |t|];
      }
    }
    r
  }

  /** Formation is disabled with a blank name or too little cash. */
  predicate FormDisabled(name: string, cash: real) {
    Trim(name) == "" || !CanAffordFormation(cash)
  }

  datatype FormOutcome = FormOutcome(request: Option<string>, input: string)

  /** handleFormAlliance: with a non-blank name and enough cash, the trimmed
    * name is sent and the input is cleared; otherwise nothing happens. */
  function HandleFormAlliance(name: string, cash: real): (r: FormOutcome)
    ensures r.request.Some? <==> !FormDisabled(name, cash)
    ensures r.request.Some? ==> r.request.value == Trim(name) && r.request.value != "" && r.input == ""
    ensures r.request.None? ==> r.input == name
  {
    if Trim(name) != "" && CanAffordFormation(cash) then FormOutcome(Some(Trim(name)), "")
    else FormOutcome(None, name)
  }

  /** A request from the form of a player without an alliance id forms the
    * alliance under the trimmed name. A player whose alliance id names no
    * listed alliance also sees the form, but the command refuses it. */
  lemma FormRequestFormsAlliance(w: Commands.AllianceWorld, name: string, newId: string)
    requires HandleFormAlliance(name, w.player.cash).request.Some?
    ensures w.player.allianceId.None? ==>
              var r := Commands.FormAlliance(w, HandleFormAlliance(name, w.player.cash).request.value, newId);
              r.alliances == w.alliances + [Alliance(newId, Trim(name), [PlayerMember])] &&
              r.player.allianceId == Some(newId) && r.player.cash == w.player.cash - FormationCost
    ensures w.player.allianceId.Some? ==>
              Commands.FormAlliance(w, HandleFormAlliance(name, w.player.cash).request.value, newId) == w
  {
  }

  // ---------------------------------------------------------------------
  // Invitations

  /** A competitor counts as unaligned with no alliance id or an empty one. */
  predicate Unaligned(c: Competitor) { c.allianceId.None? || c.allianceId.value == "" }

  function EligibleForInvite(competitors: seq<Competitor>): (r: seq<Competitor>)
    ensures forall c :: c in r <==> c in competitors && Unaligned(c)
  {
    Filter(competitors, Unaligned)
  }

  /** Inviting a listed competitor into the player's alliance gives that
    * competitor the player's alliance id and leaves the others alone. */
  lemma InviteAlignsCompetitor(w: Commands.AllianceWorld, c: Competitor)
    requires c in EligibleForInvite(w.competitors) && w.player.allianceId.Some?
    ensures var r := Commands.Invite(w, c.id);
            forall k :: 0 <= k < |w.competitors| ==>
              (w.competitors[k].id == c.id ==> r.competitors[k].allianceId == w.player.allianceId) &&
              (w.competitors[k].id != c.id ==> r.competitors[k] == w.competitors[k])
  {
  }
}
