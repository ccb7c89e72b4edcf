/** The consent record the banner stores and announces: which kinds of cookie
    the visitor allows, and the JSON text it is stored as. */
module Preferences {
  import opened Wrappers
  import opened Props
  import opened Json

  /** The consent record the handlers build, store and announce. */
  datatype Consent = Consent(analytics: bool, preference: bool)

  const Accepted := Consent(true, true)
  const Rejected := Consent(false, false)

  /** The record as the object literal `{analytics, preference}` the handlers build. */
  function ConsentJson(c: Consent): JsonVal {
    JObj([("analytics", JBool(c.analytics)), ("preference", JBool(c.preference))])
  }

  /** The payload the opt-out branch of `init` announces, with its keys in the
      order the source writes them. */
  const OptOutPayload := JObj([("preference", JBool(true)), ("analytics", JBool(true))])

  /** The text `JSON.stringify` gives for one boolean member. */
  function MemberText(key: string, b: bool): string {
    EncodeString(key) + ":" + Encode(JBool(b))
  }

  lemma ConsentShape(c: Consent)
    ensures Encode(ConsentJson(c)) ==
      "{" + (MemberText("analytics", c.analytics) + "," + MemberText("preference", c.preference)) + "}"
  {
    var ms := ConsentJson(c).members;
    assert ms[1..] == [("preference", JBool(c.preference))];
    assert EncodeMembers(ms[1..]) == MemberText("preference", c.preference);
    assert EncodeMembers(ms) == MemberText("analytics", c.analytics) + "," + EncodeMembers(ms[1..]);
  }

  /** A key with no character that needs escaping is written between quotes as is. */
  lemma PlainMember(key: string, b: bool)
    requires forall i :: 0 <= i < |key| ==> key[i] != '"' && key[i] != '\\' && key[i] as int >= 32
    ensures MemberText(key, b) == "\"" + key + "\"" + ":" + (if b then "true" else "false")
  {
    PlainStringUnescaped(key);
  }

  // The text of each member is proved for its key passed as a variable, which keeps
  // the verifier from evaluating the escaping of a literal key character by character.

  lemma AnalyticsMember(key: string, b: bool)
    requires key == "analytics"
    ensures MemberText(key, b) == if b then "\"analytics\":true" else "\"analytics\":false"
  {
    PlainMember(key, b);
  }

  lemma PreferenceMember(key: string, b: bool)
    requires key == "preference"
    ensures MemberText(key, b) == if b then "\"preference\":true" else "\"preference\":false"
  {
    PlainMember(key, b);
  }

  lemma AcceptedJoin(x: string, y: string)
    requires x == "\"analytics\":true" && y == "\"preference\":true"
    ensures "{" + (x + "," + y) + "}" == "{\"analytics\":true,\"preference\":true}"
  {
  }

  lemma RejectedJoin(x: string, y: string)
    requires x == "\"analytics\":false" && y == "\"preference\":false"
    ensures "{" + (x + "," + y) + "}" == "{\"analytics\":false,\"preference\":false}"
  {
  }

  /** The cookie value `onAcceptClick` writes, character for character. */
  lemma AcceptedCookieText()
    ensures Encode(ConsentJson(Accepted)) == "{\"analytics\":true,\"preference\":true}"
  {
    ConsentShape(Accepted);
    AnalyticsMember("analytics", true);
    PreferenceMember("preference", true);
    AcceptedJoin(MemberText("analytics", true), MemberText("preference", true));
  }

  /** The cookie value `onRejectClick` writes, character for character. */
  lemma RejectedCookieText()
    ensures Encode(ConsentJson(Rejected)) == "{\"analytics\":false,\"preference\":false}"
  {
    ConsentShape(Rejected);
    AnalyticsMember("analytics", false);
    PreferenceMember("preference", false);
    RejectedJoin(MemberText("analytics", false), MemberText("preference", false));
  }

  /** The opt-out payload is the accepted record with its keys in another order:
      every property reads the same. */
  lemma OptOutPayloadIsAcceptance(key: string)
    ensures Lookup(OptOutPayload.members, key) == Lookup(ConsentJson(Accepted).members, key)
  {
    var ms := OptOutPayload.members;
    var ns := ConsentJson(Accepted).members;
    assert ms[..1][..0] == [] && ns[..1][..0] == [];
  }
}
