/**
 * The welcome bot in the corner of the pages. Opening it for the first time fills the chat with
 * two welcome texts chosen by the page's variant and addressed to the user by name; each text
 * the user sends is appended and, a moment later, answered by the response of the first quick
 * action it mentions or by a default text. The message ids and the delay are left to the
 * caller: the reply is a separate step.
 */
module WelcomeAgent {
  import opened Wrappers
  import opened Text
  import opened Lists

  datatype Variant = DefaultVariant | CandidatVariant | AssistantVariant | RecruteurVariant | AdminVariant

  const DefaultTexts: seq<string> := [
    "Bonjour ! 👋 Je suis ton assistant Candid'aide.",
    "Je suis là pour t'aider dans ta recherche d'emploi. Que puis-je faire pour toi aujourd'hui ?"]

  const CandidatTexts: seq<string> := [
    "Bonjour ! 👋 Bienvenue sur ton espace candidat.",
    "Tu as 1 candidature en attente d'être postulée. Voici quelques offres correspondant à tes critères !"]

  /** `WELCOME_MESSAGES[variant] || WELCOME_MESSAGES.default`: only two variants have texts. */
  function WelcomeTexts(v: Variant): (r: seq<string>)
    ensures |r| == 2
    ensures v != CandidatVariant ==> r == DefaultTexts
  {
    if v == CandidatVariant then CandidatTexts else DefaultTexts
  }

  /**
   * A text addressed to the user: its first `!` becomes " name !", when a name is known. The
   * name is a `replace` template, so `$&`, `$$`, `` $` `` and `$'` in it are substituted.
   */
  function Personalise(content: string, userName: string): (r: string)
    ensures userName == "" || '!' !in content ==> r == content
    ensures userName != "" && '!' in content ==>
      exists i :: 0 <= i < |content| && content[i] == '!' && '!' !in content[..i]
        && r == content[..i] + " " + NameText(content, userName, i) + " !" + content[i + 1..]
  {
    if userName == "" then content
    else
      NameReplaced(content, userName);
      ReplaceFirst(content, '!', " " + userName + " !")
  }

  /** Replacing the first `!` by the template " name !" puts the substituted name there. */
  lemma NameReplaced(content: string, userName: string)
    ensures '!' in content ==>
      exists i :: 0 <= i < |content| && content[i] == '!' && '!' !in content[..i]
        && ReplaceFirst(content, '!', " " + userName + " !")
           == content[..i] + " " + NameText(content, userName, i) + " !" + content[i + 1..]
  {
    if '!' in content {
      var i := IndexOf(content, '!');
      var before, after := content[..i], content[i + 1..];
      var name := NameText(content, userName, i);
      var template := " " + userName + " !";
      assert ReplaceFirst(content, '!', template) == before + Substitute(template, "!", before, after) + after;
      assert Substitute(template, "!", before, after) == " " + name + " !" by {
        NameTemplate(userName, before, after);
      }
      Regroup(before, name, after);
    }
  }

  /** Where the parentheses fall in the personalised text. */
  lemma Regroup(before: string, name: string, after: string)
    ensures before + (" " + name + " !") + after == before + " " + name + " !" + after
  {
  }

  /** The name as it appears in the text whose first `!` is at `i`. */
  function NameText(content: string, userName: string, i: int): string
    requires 0 <= i < |content|
  {
    Substitute(userName, "!", content[..i], content[i + 1..])
  }

  /** The template " name !" substitutes the name alone: its own characters hold no `$`. */
  lemma NameTemplate(userName: string, before: string, after: string)
    ensures Substitute(" " + userName + " !", "!", before, after)
            == " " + Substitute(userName, "!", before, after) + " !"
  {
    assert (" " + userName + " !")[1..] == userName + " !";
    SubstituteAppend(userName, " !", "!", before, after);
  }

  /** Personalising a text whose first `!` is at `i`. */
  lemma PersonaliseAt(content: string, userName: string, i: int)
    requires userName != "" && 0 <= i < |content|
    requires content[i] == '!' && '!' !in content[..i]
    ensures Personalise(content, userName)
         == content[..i] + " " + NameText(content, userName, i) + " !" + content[i + 1..]
  {
    var j :| 0 <= j < |content| && content[j] == '!' && '!' !in content[..j]
        && Personalise(content, userName) == content[..j] + " " + NameText(content, userName, j) + " !" + content[j + 1..];
    FirstIndexUnique(content, '!', i, j);
  }

  /** A name without `$` is inserted as it is. */
  lemma PlainName(content: string, userName: string, i: int)
    requires userName != "" && '$' !in userName && 0 <= i < |content|
    requires content[i] == '!' && '!' !in content[..i]
    ensures Personalise(content, userName) == content[..i] + " " + userName + " !" + content[i + 1..]
  {
    PersonaliseAt(content, userName, i);
  }

  /** The template `$&` stands for the matched text. */
  lemma MatchedTemplate(matched: string, before: string, after: string)
    ensures Substitute("$&", matched, before, after) == matched
  {
    assert "$&"[2..] == [];
  }

  /** A user named `$&` is greeted with the matched `!` in place of the name. */
  lemma MatchedTextName()
    ensures Personalise("Bonjour !", "$&") == "Bonjour  ! !"
  {
    var before := "Bonjour ";
    assert before + "!" == "Bonjour !";
    NameAtEnd(before, "$&");
    MatchedTemplate("!", before, []);
    assert before + " " + "!" + " !" == "Bonjour  ! !";
  }

  /** Personalising a text that ends with its only `!`. */
  lemma NameAtEnd(before: string, userName: string)
    requires userName != "" && '!' !in before
    ensures Personalise(before + "!", userName)
         == before + " " + Substitute(userName, "!", before, []) + " !"
  {
    var c := before + "!";
    assert c[|before|] == '!' && c[..|before|] == before && c[|before| + 1..] == [];
    PersonaliseAt(c, userName, |before|);
  }

  /** Two positions of the first occurrence of a character are the same. */
  lemma FirstIndexUnique(s: string, c: char, i: int, j: int)
    requires 0 <= i < |s| && s[i] == c && c !in s[..i]
    requires 0 <= j < |s| && s[j] == c && c !in s[..j]
    ensures i == j
  {
  }

  /**
   * A text whose first `!` follows a space keeps that space and gains another: addressed to a
   * user, the name follows two spaces.
   */
  lemma NameAfterTwoSpaces(content: string, userName: string, i: int)
    requires userName != "" && 0 < i < |content|
    requires content[i] == '!' && '!' !in content[..i] && content[i - 1] == ' '
    ensures var name := NameText(content, userName, i);
      Personalise(content, userName)[..i + 1 + |name|] == content[..i] + " " + name
    ensures Personalise(content, userName)[i - 1..i + 1] == "  "
  {
    PersonaliseAt(content, userName, i);
    SpaceBeforeInsert(content[..i], NameText(content, userName, i), content[i + 1..]);
  }

  /** Text ending in a space, then a space and a name: the name follows two spaces. */
  lemma SpaceBeforeInsert(before: string, name: string, after: string)
    requires before != [] && before[|before| - 1] == ' '
    ensures var r := before + " " + name + " !" + after;
      r[..|before| + 1 + |name|] == before + " " + name && r[|before| - 1..|before| + 1] == "  "
  {
    var head := before + " " + name;
    var r := before + " " + name + " !" + after;
    assert r == head + (" !" + after);
    assert r[..|head|] == head;
    assert r[|before| - 1] == ' ' && r[|before|] == ' ';
  }

  datatype ChatMessage = ChatMessage(id: string, content: string, isBot: bool)

  /** The welcome texts as chat messages: one bot message per text, numbered from 0. */
  function WelcomeMessages(texts: seq<string>, userName: string): (r: seq<ChatMessage>)
    ensures |r| == |texts|
    ensures forall i :: 0 <= i < |texts| ==>
      r[i] == ChatMessage("welcome-" + NatToString(i), Personalise(texts[i], userName), true)
  {
    seq(|texts|, i requires 0 <= i < |texts| =>
      ChatMessage("welcome-" + NatToString(i), Personalise(texts[i], userName), true))
  }

  /** The welcome messages of a variant. */
  function Welcome(v: Variant, userName: string): seq<ChatMessage> {
    WelcomeMessages(WelcomeTexts(v), userName)
  }

  /** Welcome messages are bot messages, the first two with distinct ids, written as is without a name. */
  lemma WelcomeShape(texts: seq<string>, userName: string)
    ensures forall i :: 0 <= i < |texts| ==> WelcomeMessages(texts, userName)[i].isBot
    ensures |texts| >= 2 ==> WelcomeMessages(texts, userName)[0].id != WelcomeMessages(texts, userName)[1].id
    ensures userName == "" ==> forall i :: 0 <= i < |texts| ==> WelcomeMessages(texts, userName)[i].content == texts[i]
  {
    if |texts| >= 2 {
      var r := WelcomeMessages(texts, userName);
      assert NatToString(0) == "0" && NatToString(1) == "1";
      assert r[0].id[8] == '0' && r[1].id[8] == '1';
    }
  }

  /** The bot's replies: one per quick action, and the default. */
  datatype BotReply = HowItWorks | Prices | TalkToHuman | Thanks

  /** The text of each reply. */
  function ReplyText(r: BotReply): string {
    match r
    case HowItWorks =>
      "Candid'aide t'accompagne dans ta recherche d'emploi. Tu peux choisir entre 3 modes : Autonome (gratuit), Assisté (avec un assistant dédié), ou Délégation totale (tout est géré pour toi). Clique sur 'Commencer' pour démarrer !"
    case Prices =>
      "Nos formules vont de 0€ (mode autonome) à 60€/mois (délégation totale). Le mode Assisté commence à 20€ pour un pack de 8 candidatures. Tu veux que je t'explique les différences ?"
    case TalkToHuman =>
      "Bien sûr ! Tu peux nous contacter par WhatsApp au +32 471 47 86 93 ou par email à contact@candidaide.be. Nous te répondrons dans les plus brefs délais ! 💬"
    case Thanks =>
      "Merci pour ton message ! Un membre de notre équipe te répondra bientôt. En attendant, n'hésite pas à explorer notre site ou commencer ton inscription. 😊"
  }

  datatype QuickAction = QuickAction(title: string, response: BotReply)

  const QuickActions: seq<QuickAction> := [
    QuickAction("Comment ça marche ?", HowItWorks),
    QuickAction("Voir les tarifs", Prices),
    QuickAction("Parler à un humain", TalkToHuman)]

  const DefaultReply := Thanks

  /** The key of an action: the first ten characters of its lower-cased label. */
  function ActionKey(a: QuickAction): string {
    Take(Lower(a.title), 10)
  }

  /** A text mentions an action when its lower-cased form contains the action's key. */
  predicate Mentions(content: string, a: QuickAction) {
    Contains(Lower(content), ActionKey(a))
  }

  /** The position of the first action that the text mentions (`QUICK_ACTIONS.find`). */
  function FirstMentioned(content: string, actions: seq<QuickAction>): (r: Option<nat>)
    ensures r.Some? ==> r.value < |actions| && Mentions(content, actions[r.value])
    ensures r.Some? ==> forall j :: 0 <= j < r.value ==> !Mentions(content, actions[j])
    ensures r.None? ==> forall j :: 0 <= j < |actions| ==> !Mentions(content, actions[j])
  {
    if actions == [] then None
    else if Mentions(content, actions[0]) then Some(0)
    else
      var rest := FirstMentioned(content, actions[1..]);
      if rest.Some? then Some(rest.value + 1) else None
  }

  /** The reply among `actions`: the response of the first one mentioned, or `fallback`. */
  function ReplyAmong(content: string, actions: seq<QuickAction>, fallback: BotReply): (reply: BotReply)
    ensures (forall j :: 0 <= j < |actions| ==> !Mentions(content, actions[j])) ==> reply == fallback
    ensures forall i :: 0 <= i < |actions| ==>
      (Mentions(content, actions[i]) && forall j :: 0 <= j < i ==> !Mentions(content, actions[j])) ==>
      reply == actions[i].response
  {
    var found := FirstMentioned(content, actions);
    if found.Some? then
      assert forall i :: 0 <= i < |actions| && Mentions(content, actions[i]) ==> found.value <= i;
      actions[found.value].response
    else fallback
  }

  /** Every text mentions the action whose label it is. */
  lemma MentionsOwnLabel(a: QuickAction)
    ensures Mentions(a.title, a)
  {
    var low := Lower(a.title);
    var key := ActionKey(a);
    assert key == low[..|key|];
    assert StartsWith(low, key);
  }

  /** A text none of whose characters lower-cases to `key[0]` does not contain `key`. */
  lemma LacksFirst(s: string, key: string)
    requires key != ""
    requires forall k :: 0 <= k < |s| ==> LowerChar(s[k]) != key[0]
    ensures !Contains(Lower(s), key)
  {
    LowerPointwise(s);
    if Contains(Lower(s), key) {
      ContainsNecessary(Lower(s), key);
    }
  }

  /** An action's key starts with its label's first character, lower-cased. */
  lemma KeyStart(a: QuickAction)
    requires a.title != ""
    ensures ActionKey(a) != [] && ActionKey(a)[0] == LowerChar(a.title[0])
  {
    LowerPointwise(a.title);
  }

  /**
   * A label is answered with its own action's response when no character of it lower-cases to
   * the first letter of an earlier action's key.
   */
  lemma AnswersOwnTitle(actions: seq<QuickAction>, i: int, fallback: BotReply)
    requires 0 <= i < |actions|
    requires forall j :: 0 <= j < i ==> actions[j].title != []
    requires forall j, k :: 0 <= j < i && 0 <= k < |actions[i].title| ==>
      LowerChar(actions[i].title[k]) != LowerChar(actions[j].title[0])
    ensures ReplyAmong(actions[i].title, actions, fallback) == actions[i].response
  {
    MentionsOwnLabel(actions[i]);
    forall j | 0 <= j < i ensures !Mentions(actions[i].title, actions[j]) {
      KeyStart(actions[j]);
      LacksFirst(actions[i].title, ActionKey(actions[j]));
    }
  }

  /** A quick-action button sends its own label, and the bot answers with that action's response. */
  lemma QuickActionAnswersItself(i: int)
    requires 0 <= i < |QuickActions|
    ensures ReplyAmong(QuickActions[i].title, QuickActions, DefaultReply) == QuickActions[i].response
  {
    var t1, t2 := QuickActions[1].title, QuickActions[2].title;
    assert forall k :: 0 <= k < |t1| ==> LowerChar(t1[k]) != 'c';
    assert forall k :: 0 <= k < |t2| ==> LowerChar(t2[k]) != 'c' && LowerChar(t2[k]) != 'v';
    AnswersOwnTitle(QuickActions, i, DefaultReply);
  }

  /** `QUICK_ACTIONS.find(...)?.response || default`, over `actions`. */
  method FindReply(content: string, actions: seq<QuickAction>, fallback: BotReply) returns (reply: BotReply)
    ensures reply == ReplyAmong(content, actions, fallback)
  {
    var i := 0;
    while i < |actions|
      invariant 0 <= i <= |actions|
      invariant forall j :: 0 <= j < i ==> !Mentions(content, actions[j])
    {
      if Contains(Lower(content), Take(Lower(actions[i].title), 10)) {
        FirstMentionedIsFirst(content, actions, i);
        return actions[i].response;
      }
      i := i + 1;
    }
    return fallback;
  }

  class Agent {
    const variant: Variant
    const userName: string
    /** The quick actions the bot answers to, `QuickActions` for every agent. */
    const actions: seq<QuickAction>
    var isOpen: bool
    var messages: seq<ChatMessage>
    var input: string
    var hasInteracted: bool

    constructor(variant: Variant, userName: string)
      ensures this.variant == variant && this.userName == userName && actions == QuickActions
      ensures !isOpen && messages == [] && input == "" && !hasInteracted
    {
      this.variant := variant;
      this.userName := userName;
      actions := QuickActions;
      isOpen := false;
      messages := [];
      input := "";
      hasInteracted := false;
    }

    /** `initializeChat`: the welcome messages, the first time only. */
    method InitializeChat()
      modifies this`messages, this`hasInteracted
      ensures !old(hasInteracted) ==> messages == Welcome(variant, userName)
      ensures old(hasInteracted) ==> messages == old(messages)
      ensures hasInteracted
    {
      if !hasInteracted {
        messages := Welcome(variant, userName);
        hasInteracted := true;
      }
    }

    /** `handleOpen`: the chat opens and is initialised. */
    method HandleOpen()
      modifies this`isOpen, this`messages, this`hasInteracted
      ensures isOpen && hasInteracted
      ensures !old(hasInteracted) ==> messages == Welcome(variant, userName)
      ensures old(hasInteracted) ==> messages == old(messages)
    {
      isOpen := true;
      InitializeChat();
    }

    /**
     * `sendMessage`: a blank text does nothing; any other is appended as the user's message,
     * as typed, and the input emptied. The reply it schedules is returned, to be delivered by
     * `DeliverReply`.
     */
    method SendMessage(content: string, id: string) returns (reply: Option<BotReply>)
      modifies this`messages, this`input
      ensures Trim(content) == "" ==>
        reply == None && messages == old(messages) && input == old(input)
      ensures Trim(content) != "" ==>
        && messages == old(messages) + [ChatMessage(id, content, false)]
        && input == ""
        && reply == Some(ReplyAmong(content, actions, DefaultReply))
    {
      if Trim(content) == "" {
        return None;
      }
      messages := messages + [ChatMessage(id, content, false)];
      input := "";
      var r := FindReply(content, actions, DefaultReply);
      reply := Some(r);
    }

    /** The scheduled reply arrives: its text, `ReplyText` of the reply, is appended as a bot message. */
    method DeliverReply(text: string, id: string)
      modifies this`messages
      ensures messages == old(messages) + [ChatMessage(id, text, true)]
    {
      messages := messages + [ChatMessage(id, text, true)];
    }
  }

  /** The first position mentioned, when none before it is, is what `FirstMentioned` finds. */
  lemma {:induction false} FirstMentionedIsFirst(content: string, actions: seq<QuickAction>, i: nat)
    requires i < |actions| && Mentions(content, actions[i])
    requires forall j :: 0 <= j < i ==> !Mentions(content, actions[j])
    ensures FirstMentioned(content, actions) == Some(i)
  {
    if i > 0 {
      FirstMentionedIsFirst(content, actions[1..], i - 1);
    }
  }
}
