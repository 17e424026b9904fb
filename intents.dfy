/**
 * The intent catalog: an ordered list of intent records, each with a tag,
 * example phrasings (the training patterns), canned responses and an
 * optional context list that no code reads.
 */
module Intents {
  import opened Wrappers

  /** One entry of the catalog. Tags need not be unique across the catalog. */
  datatype Intent = Intent(
    tag: string,
    patterns: seq<string>,
    responses: seq<string>,
    context: Option<seq<string>>)

  /** Every record offers at least one response to choose from. */
  predicate HasResponses(intents: seq<Intent>)
  {
    forall i :: 0 <= i < |intents| ==> |intents[i].responses| > 0
  }

  /** The catalog the chatbot is built from, record for record and in order. */
  const Catalog: seq<Intent> := [
    Intent("greeting",
      ["Hi", "Hello", "Hey", "How are you", "What's up"],
      ["Hi there", "Hello", "Hey", "I'm fine, thank you", "Nothing much"],
      None),
    Intent("goodbye",
      ["Bye", "See you later", "Goodbye", "Take care"],
      ["Goodbye", "See you later", "Take care"],
      None),
    Intent("thanks",
      ["Thank you", "Thanks", "Thanks a lot", "I appreciate it"],
      ["You're welcome", "No problem", "Glad I could help"],
      None),
    Intent("about",
      ["What can you do", "Who are you", "What are you", "What is your purpose"],
      ["I am a chatbot", "My purpose is to assist you", "I can answer questions and provide assistance"],
      None),
    Intent("help",
      ["Help", "I need help", "Can you help me", "What should I do"],
      ["Sure, what do you need help with?", "I'm here to help. What's the problem?", "How can I assist you?"],
      None),
    Intent("age",
      ["How old are you", "What's your age"],
      ["I don't have an age. I'm a chatbot.", "I was just born in the digital world.", "Age is just a number for me."],
      None),
    Intent("weather",
      ["What's the weather like", "How's the weather today"],
      ["I'm sorry, I cannot provide real-time weather information.", "You can check the weather on a weather app or website."],
      None),
    Intent("budget",
      ["How can I make a budget", "What's a good budgeting strategy", "How do I create a budget"],
      ["To make a budget, start by tracking your income and expenses. Then, allocate your income towards essential expenses like rent, food, and bills. Next, allocate some of your income towards savings and debt repayment. Finally, allocate the remainder of your income towards discretionary expenses like entertainment and hobbies.",
       "A good budgeting strategy is to use the 50/30/20 rule. This means allocating 50% of your income towards essential expenses, 30% towards discretionary expenses, and 20% towards savings and debt repayment.",
       "To create a budget, start by setting financial goals for yourself. Then, track your income and expenses for a few months to get a sense of where your money is going. Next, create a budget by allocating your income towards essential expenses, savings and debt repayment, and discretionary expenses."],
      None),
    Intent("credit_score",
      ["What is a credit score", "How do I check my credit score", "How can I improve my credit score"],
      ["A credit score is a number that represents your creditworthiness. It is based on your credit history and is used by lenders to determine whether or not to lend you money. The higher your credit score, the more likely you are to be approved for credit.",
       "You can check your credit score for free on several websites such as Credit Karma and Credit Sesame."],
      None),
    Intent("greetings",
      ["Hello there", "Hey, How are you", "Hey", "Hi", "Hello", "Anybody", "Hey there"],
      ["Hello, I'm your helping bot", "Hey it's good to see you", "Hi there, how can I help you?"],
      Some([""])),
    Intent("thanks",
      ["Thanks for your quick response", "Thank you for providing the valuable information", "Awesome, thanks for helping"],
      ["Happy to help you", "Thanks for reaching out to me", "It's My pleasure to help you"],
      Some([""])),
    Intent("no_answer",
      [],
      ["Sorry, Could you repeat again", "provide me more info", "can't understand you"],
      Some([""])),
    Intent("support",
      ["What help you can do?", "What are the helps you provide?", "How you could help me", "What support is offered by you"],
      ["ticket booking for airline", "I can help you to book flight tickets easily"],
      Some([""])),
    Intent("goodbye",
      ["bye bye", "Nice to chat with you", "Bye", "See you later buddy", "Goodbye"],
      ["bye bye, thanks for reaching", "Have a nice day there", "See you later"],
      Some([""]))
  ]

  /**
   * Shape of the catalog: fourteen records, all with responses, where
   * "thanks" and "goodbye" each occur twice (the two "thanks" records
   * sharing no response, the two "goodbye" records sharing some) and "no_answer" has no patterns.
   */
  lemma CatalogShape()
    ensures |Catalog| == 14 && HasResponses(Catalog)
    ensures Catalog[2].tag == Catalog[10].tag == "thanks"
    ensures forall h :: 0 <= h < 2 ==> Catalog[h].tag != "thanks"
    ensures Catalog[0].tag != "goodbye"
    ensures |Catalog[1].responses| == |Catalog[2].responses| == 3
    ensures |Catalog[10].patterns| > 0 && |Catalog[13].patterns| > 0
    ensures forall t :: t in Catalog[2].responses ==> t !in Catalog[10].responses
    ensures Catalog[1].tag == Catalog[13].tag == "goodbye"
    ensures Catalog[13].responses[1] == "Have a nice day there"
    ensures forall h :: 0 <= h < 13 ==> Catalog[13].responses[1] !in Catalog[h].responses
    ensures Catalog[11].tag == "no_answer" && Catalog[11].patterns == []
  {
  }
}
