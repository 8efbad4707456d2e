/**
 * The app registry (src/data/apps.ts): the lab apps, the shadow nodes and the
 * AI tools. Only the fields the access rules and the pages read are checked
 * by lemmas; the rest are carried as data.
 */
module AppsData {
  import opened Wrappers

  /** Who may open a lab app. */
  datatype AccessLevel = Guest | User | Admin

  /** The role a shadow node requires. */
  datatype NodeRole = UserOnly | AdminOnly

  datatype LabApp = LabApp(
    id: string, name: string, desc: string, techTags: seq<string>, color: string,
    url: string, accessLevel: AccessLevel, badge: Option<string>, image: string)

  datatype ShadowNode = ShadowNode(
    id: string, name: string, icon: string, desc: string, url: string,
    role: NodeRole, warning: Option<string>)

  datatype AiTool = AiTool(id: string, name: string, maker: string, desc: string, url: string)

  const LabApps: seq<LabApp> := [
    LabApp("marifah", "Marifah", "Thai Restaurant · Meyrin, Geneva · Bilingual FR/EN",
           ["React", "Tailwind", "Supabase"], "#4ADE80", "https://marifah.naskaus.com",
           Guest, None, "/images/marifah.jpg"),
    LabApp("meetbeyond", "Meet Beyond", "Travel Voucher App · Thailand DMC Partners · Works Offline",
           ["PWA", "Vanilla JS", "Offline-first", "QR Vouchers"], "#FF6B6B", "https://meetbeyond.naskaus.com",
           Guest, None, "/images/meetbeyond.jpg"),
    LabApp("aperipommes", "Aperi Pommes", "Swiss Made · 100% Fruit · Artisan Craft · Multilingual FR/DE/EN",
           ["Vue.js", "i18n", "Admin CMS", "SEO"], "#8B5E3C", "https://aperipommes.naskaus.com",
           Guest, None, "/images/aperipommes.jpg"),
    LabApp("pantiesfan", "PantiesFan", "Niche Auction Platform · Adults Only · Real-Time Bidding",
           ["HTML", "CSS", "JS", "Custom Auction Engine"], "#DC143C", "https://pantiesfan.com",
           Guest, Some("18+"), "/images/pantiesfan.jpg")
  ]

  const ShadowNodes: seq<ShadowNode> := [
    ShadowNode("agency", "Agency Performance", "\U{1F4CA}", "Staff records. Bonus payroll calculator.",
               "https://agency.naskaus.com", UserOnly, None),
    ShadowNode("tasks", "CEO/COO Tasks", "\U{1F4CB}", "Executive task & schedule management.",
               "https://tasks.naskaus.com", UserOnly, None),
    ShadowNode("party", "Party Planner", "\U{1F389}", "Team event planning & coordination.",
               "https://tasks.naskaus.com/party", UserOnly, None),
    ShadowNode("purchase", "Purchase Manager", "\U{1F6D2}", "Procurement tracking & expense validation.",
               "https://naskaus.pythonanywhere.com/login", AdminOnly, None),
    ShadowNode("workflows", "AI Workflows", "⚡", "n8n automation pipelines.",
               "https://digital-shadow.tailf44989.ts.net/home/workflows", AdminOnly,
               Some("Internal network only — requires Tailscale VPN")),
    ShadowNode("moltbot", "Moltbot Agent", "\U{1F916}", "Personal AI. Slack · Telegram · Google. Runs 24/7.",
               "http://127.0.0.1:18789/chat", AdminOnly,
               Some("Server local — admin terminal only"))
  ]

  const AiTools: seq<AiTool> := [
    AiTool("claude", "Claude / Anthropic Console", "Anthropic", "The AI backbone of all Naskaus apps",
           "https://console.anthropic.com"),
    AiTool("claude-code", "Claude Code", "Anthropic", "Agentic AI coding in the terminal",
           "https://claude.ai/code"),
    AiTool("antigravity", "Google Antigravity", "Google", "Next-gen development IDE",
           "https://antigravity.google"),
    AiTool("ai-studio", "Google AI Studio", "Google", "Rapid prototyping with Gemini",
           "https://aistudio.google.com"),
    AiTool("stitch", "Google Stitch", "Google", "AI-powered design-to-code",
           "https://stitch.withgoogle.com"),
    AiTool("gemini", "Gemini", "Google", "Multimodal AI assistant",
           "https://gemini.google.com"),
    AiTool("flow", "Google Flow (Veo 3.1)", "Google Labs", "AI video and image generation",
           "https://labs.google/flow")
  ]

  /** The ids of the nodes that require `role`, in table order. */
  function IdsWithRole(nodes: seq<ShadowNode>, role: NodeRole): (ids: seq<string>)
    ensures |ids| <= |nodes|
    ensures forall id :: id in ids <==> exists n :: n in nodes && n.role == role && n.id == id
  {
    if nodes == [] then []
    else
      var rest := IdsWithRole(nodes[1..], role);
      assert forall n :: n in nodes <==> n == nodes[0] || n in nodes[1..];
      if nodes[0].role == role then [nodes[0].id] + rest else rest
  }

  /**
   * The ids come in table order: the ids of two tables laid end to end are
   * the first table's ids followed by the second's.
   */
  lemma {:induction false} IdsConcat(a: seq<ShadowNode>, b: seq<ShadowNode>, role: NodeRole)
    ensures IdsWithRole(a + b, role) == IdsWithRole(a, role) + IdsWithRole(b, role)
  {
    if a == [] {
      assert a + b == b;
    } else {
      assert (a + b)[0] == a[0];
      assert (a + b)[1..] == a[1..] + b;
      IdsConcat(a[1..], b, role);
    }
  }

  /** One node contributes its own id exactly when it has the role. */
  lemma IdsSingleton(n: ShadowNode, role: NodeRole)
    ensures IdsWithRole([n], role) == (if n.role == role then [n.id] else [])
  {
    assert [n][1..] == [];
  }

  /** Three nodes for signed-in users (agency, tasks, party) and three for admins. */
  lemma NodeRoles()
    ensures IdsWithRole(ShadowNodes, UserOnly) == ["agency", "tasks", "party"]
    ensures IdsWithRole(ShadowNodes, AdminOnly) == ["purchase", "workflows", "moltbot"]
  {
    assert ShadowNodes[1..][1..][1..][1..][1..][1..] == [];
  }

  /** Node ids are pairwise distinct, and none is the admin panel's id. */
  lemma NodeIdsDistinct()
    ensures forall i, j :: 0 <= i < j < |ShadowNodes| ==> ShadowNodes[i].id != ShadowNodes[j].id
    ensures forall n :: n in ShadowNodes ==> n.id != "admin-panel"
  {
  }

  /** Only admin nodes carry a warning. */
  lemma WarningsOnAdminNodes()
    ensures forall n :: n in ShadowNodes && n.warning.Some? ==> n.role == AdminOnly
  {
  }

  /** Every lab app is open to guests, and only "pantiesfan" carries a badge, "18+". */
  lemma LabAppsOpen()
    ensures |LabApps| == 4
    ensures forall a :: a in LabApps ==> a.accessLevel == Guest
    ensures forall a :: a in LabApps && a.badge.Some? ==> a.id == "pantiesfan" && a.badge.value == "18+"
  {
  }

  /** Seven AI tools with distinct ids. */
  lemma AiToolIdsDistinct()
    ensures |AiTools| == 7
    ensures forall i, j :: 0 <= i < j < |AiTools| ==> AiTools[i].id != AiTools[j].id
  {
  }
}
