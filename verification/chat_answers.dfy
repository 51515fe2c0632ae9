/**
 The canned answers of the chat endpoint's knowledge base, one per topic.
 They live apart from the matching logic so that proofs about triggers never
 have to carry the answer texts.
 */
module ChatAnswers {
  /** The subject each knowledge-base entry answers, one per entry. */
  datatype Topic =
    | Identity | Location | OpSuite | Modbus | Iot | PredictiveMaintenance
    | Strategy | Roadmap | WebSystems | MobileApps | OfflineApps | Automation | Ai
    | StartingAProject | Pricing | Contact | Residential | Support

  /** The canned answer text of each topic, as the knowledge base spells it out. */
  function Answer(t: Topic): string {
    match t
    case Identity =>
      "We are TekMakon, a friendly engineering guide based in Calamba City, Laguna. We help businesses decide how technology should support their goals, serving clients nationwide and remotely. We prioritize clear, practical explanations over confusing jargon."
    case Location =>
      "Our office is in Calamba City, Laguna, Philippines, but we serve clients nationwide and remotely."
    case OpSuite =>
      "**OpSuite** is our solution that turns raw energy and operational data into financial insights.\n\n**Who is it for?**\nBuilding owners and facility managers.\n\n**Top Features:**\n1. Real-time energy monitoring\n2. Cost tracking and savings insights\n3. Actionable dashboards"
    case Modbus =>
      "**Modbus** is like a common language machines use to talk to each other.\n\n*Technical Definition:* A communication protocol used in industrial devices for data exchange."
    case Iot =>
      "**IoT (Internet of Things)** is like giving every device a 'voice'.\n\n*Simple Analogy:* Every device becomes a sensor that can speak.\n*Technical Definition:* A network of connected devices that collect and exchange data."
    case PredictiveMaintenance =>
      "**Predictive Maintenance** is simply fixing things *before* they break.\n\n*Technical Definition:* Using data and AI to predict equipment failure so you can act early."
    case Strategy =>
      "We help businesses decide how technology should support their goals, not the other way around. We offer IT strategy, digital transformation, and system planning."
    case Roadmap =>
      "We create a clear **Technology Roadmap** of what systems to build now, later, and why. This helps with scalability and budgeting."
    case WebSystems =>
      "We build custom web systems tailored exactly to your business using modern tech like React, Next.js, and Node.js."
    case MobileApps =>
      "We create mobile apps for Android, iOS, or cross-platform use (using React Native or Flutter)."
    case OfflineApps =>
      "We build apps that work even without the internet (Offline-First) using technologies like Electron and SQLite."
    case Automation =>
      "We automate repetitive digital tasks humans shouldn't waste time on. This includes approvals, notifications, and robotic process automation (RPA)."
    case Ai =>
      "We add AI that predicts, scores, or detects anomalies. We also build chatbots (like me!) and virtual assistants to guide users inside your system."
    case StartingAProject =>
      "**How to Start a Project:**\n1. Initial discovery call\n2. Requirement discussion\n3. Proposal & scope\n4. Project kickoff\n5. Build, test, deploy\n6. Support & improvement"
    case Pricing =>
      "Our pricing is flexible:\n- **Custom Quote:** Based on project scope.\n- **Fixed Price:** For well-defined projects.\n- **Retainer:** For ongoing support contracts."
    case Contact =>
      "You can reach us at **support@tekmakon.com**, use the contact form on our website, or I can help guide you to the right service right here."
    case Residential =>
      "Do we do residential home automation? Yes, for selected projects depending on scope and requirements."
    case Support =>
      "Yes, we offer post-launch support, including maintenance, enhancements, and system monitoring."
  }

  /** The answer when no trigger occurs in the message: a menu of topics. */
  const Fallback: string :=
    "I'm your TekMakon Guide. I can help with:\n\n1. **Services** (Web, Mobile, AI, IoT)\n2. **Products** (OpSuite)\n3. **Learning** (Explain IoT, Modbus)\n4. **Business** (Pricing, Process)\n\nWhat would you like to know?"
}
