/**
 * The auto-reply policy of `handleAutoReply`: lower-case the text, then the
 * first rule whose keyword occurs in it decides the reply. Lower-casing is
 * ASCII only (Go's `strings.ToLower` also folds non-ASCII letters).
 */
module AutoReply {
  import opened Wrappers
  import Text
  import Settings
  import Outbound

  datatype Rule = Greeting | Help | Info | NoMatch

  predicate GreetingKeyword(lower: string) {
    Text.Contains(lower, "hello") || Text.Contains(lower, "hi") || Text.Contains(lower, "halo")
  }

  predicate HelpKeyword(lower: string) {
    Text.Contains(lower, "help") || Text.Contains(lower, "bantuan")
  }

  predicate InfoKeyword(lower: string) {
    Text.Contains(lower, "info")
  }

  /** Rule selection: greeting beats help, help beats info, and without any keyword there is no reply. */
  function SelectRule(messageText: string): (r: Rule)
    ensures r == Greeting <==> GreetingKeyword(Text.Lower(messageText))
    ensures r == Help <==> !GreetingKeyword(Text.Lower(messageText)) && HelpKeyword(Text.Lower(messageText))
    ensures r == Info <==>
              !GreetingKeyword(Text.Lower(messageText)) && !HelpKeyword(Text.Lower(messageText)) &&
              InfoKeyword(Text.Lower(messageText))
  {
    var lowerText := Text.Lower(messageText);
    if GreetingKeyword(lowerText) then Greeting
    else if HelpKeyword(lowerText) then Help
    else if InfoKeyword(lowerText) then Info
    else NoMatch
  }

  /** The reply text of each rule; `NoMatch` has none. */
  const HELP_MENU := "! How can I help you today?\n\n1. Type 'info' for information\n" +
                     "2. Type 'contact' for contact details\n3. Type 'hello' for a greeting"
  const INFO_TEXT := "This is a WhatsApp Cloud API webhook demo.\n\nBuilt with Go."

  function ReplyText(rule: Rule, senderName: string): (r: Option<string>)
    ensures r.Some? <==> rule != NoMatch
  {
    match rule
    case Greeting => Some("Hello " + senderName + "! Welcome to our service. How can I help you today?")
    case Help => Some("Hi " + senderName + HELP_MENU)
    case Info => Some(INFO_TEXT)
    case NoMatch => None
  }

  /**
   * `handleAutoReply`: at most one text send, to the sender, carrying the
   * reply of the selected rule; none when no rule matches. Send failures are
   * only logged, so the outcome is what the task observes, nothing more.
   */
  function HandleAutoReply(cfg: Settings.Config, to: string, senderName: string, messageText: string,
                           transport: Outbound.Transport, parseOk: Outbound.ResponseParser): (r: Option<Outbound.SendOutcome>)
    ensures r.Some? <==> SelectRule(messageText) != NoMatch
    ensures r.Some? ==> r.value == Outbound.SendTextMessage(cfg, to, ReplyText(SelectRule(messageText), senderName).value, transport, parseOk)
    ensures r.Some? ==> |r.value.requests| <= 1
  {
    match ReplyText(SelectRule(messageText), senderName)
    case Some(reply) => Some(Outbound.SendTextMessage(cfg, to, reply, transport, parseOk))
    case None => None
  }

  /** The rule depends on the text only up to ASCII case. */
  lemma SelectRuleIgnoresCase(a: string, b: string)
    requires Text.Lower(a) == Text.Lower(b)
    ensures SelectRule(a) == SelectRule(b)
  {
  }

  /** Lower-casing the text first changes nothing. */
  lemma SelectRuleOfLowered(messageText: string)
    ensures SelectRule(Text.Lower(messageText)) == SelectRule(messageText)
  {
    Text.LowerIdempotent(messageText);
  }

  /** "hi, need help": both rules match, the greeting wins. */
  lemma GreetingBeatsHelp()
    ensures SelectRule("hi, need help") == Greeting
  {
    var lower := Text.Lower("hi, need help");
    assert lower == "hi, need help";
    assert Text.OccursAt(lower, "hi", 0);
  }

  /** "need HELP please" selects the help reply. */
  lemma UpperCaseHelp()
    ensures SelectRule("need HELP please") == Help
  {
    var lower := Text.Lower("need HELP please");
    assert lower == "need help please";
    Text.MissingCharNotContained(lower, "hello", 4);
    Text.MissingCharNotContained(lower, "hi", 1);
    Text.MissingCharNotContained(lower, "halo", 3);
    assert Text.OccursAt(lower, "help", 5);
  }

  /** "Info" selects the info reply. */
  lemma CapitalisedInfo()
    ensures SelectRule("Info") == Info
  {
    var lower := Text.Lower("Info");
    assert lower == "info";
    Text.MissingCharNotContained(lower, "hello", 0);
    Text.MissingCharNotContained(lower, "hi", 0);
    Text.MissingCharNotContained(lower, "halo", 0);
    Text.MissingCharNotContained(lower, "help", 0);
    Text.MissingCharNotContained(lower, "bantuan", 0);
    assert Text.OccursAt(lower, "info", 0);
  }

  /** "xyz" matches no rule, so no reply is sent. */
  lemma NoKeywordNoReply()
    ensures SelectRule("xyz") == NoMatch
  {
    var lower := Text.Lower("xyz");
    assert lower == "xyz";
    Text.MissingCharNotContained(lower, "hello", 0);
    Text.MissingCharNotContained(lower, "hi", 0);
    Text.MissingCharNotContained(lower, "halo", 0);
    Text.MissingCharNotContained(lower, "help", 0);
    Text.MissingCharNotContained(lower, "bantuan", 0);
    Text.MissingCharNotContained(lower, "info", 0);
  }

  /** "hi" is matched inside words: "this" gets the greeting. */
  lemma SubstringGreeting()
    ensures SelectRule("this") == Greeting
  {
    var lower := Text.Lower("this");
    assert lower == "this";
    assert Text.OccursAt(lower, "hi", 1);
  }
}
