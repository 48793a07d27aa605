/**
 * The static comparison table of config/subscriptions.ts (`plansColumns`
 * and `comparePlans`), the table the pricing page shows until the plans
 * have been fetched.
 */
module Subscriptions {
  import opened Types

  /** The table's plan columns. */
  const PlansColumns: seq<string> := ["starter", "growth", "pro"]

  /** A row of usage amounts. */
  function Amounts(feature: string, starter: string, growth: string, pro: string): Fields
  {
    map["feature" := Text(feature), "starter" := Text(starter), "growth" := Text(growth), "pro" := Text(pro)]
  }

  /** A row of inclusion marks; `Empty` is the fixture's `null`. */
  function Marks(feature: string, starter: Cell, growth: Cell, pro: Cell): Fields
  {
    map["feature" := Text(feature), "starter" := starter, "growth" := growth, "pro" := pro]
  }

  const ComparePlans: seq<Fields> := [
    Amounts("Monthly AI Conversations", "500", "1,000", "5,000"),
    Amounts("Chatbots", "1", "3", "5"),
    Amounts("Document Uploads", "2", "5", "10"),
    Marks("AI Chatbot", Flag(true), Flag(true), Flag(true)),
    Marks("Chatbot Training", Flag(true), Flag(true), Flag(true)),
    Marks("Basic Analytics", Flag(true), Flag(true), Flag(true)),
    Marks("Chatbot Notifications", Flag(true), Flag(true), Flag(true)),
    Marks("Lead Qualification", Flag(true), Flag(true), Flag(true)),
    Marks("Email Support", Flag(true), Flag(true), Flag(true)),
    Marks("Chat Support", Flag(true), Flag(true), Flag(true)),
    Marks("Human Handoff", Empty, Flag(true), Flag(true)),
    Marks("Advanced Analytics", Empty, Flag(true), Flag(true)),
    Marks("Hide Branding", Empty, Flag(true), Flag(true)),
    Marks("Customize Chat Widget", Empty, Flag(true), Flag(true)),
    Marks("Priority Support", Empty, Flag(true), Flag(true)),
    Marks("Live Support Availability", Empty, Empty, Flag(true)),
    Marks("Export Reports", Empty, Empty, Flag(true))
  ]
}
