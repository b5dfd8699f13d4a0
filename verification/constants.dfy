/**
 * Fixture data of the storefront (constants.ts). Prices are in minor units.
 * `MOCK_ORDER`, `TRACKING_DATA`, `INITIAL_STORIES` and `BACKGROUND_MUSIC_URL`
 * are not defined in that file; the pages that use them take them as parameters.
 */
module Constants {
  import opened Types

  const PRODUCTS: seq<Product> := [
    Product("prod-001", "Oversized Linen Shirt", "Urban Threads", 6800,
      "https://images.pexels.com/photos/4066290/pexels-photo-4066290.jpeg?auto=compress&cs=tinysrgb&w=600",
      Some("White"), Some(SizeLabel("M"))),
    Product("prod-002", "Classic Denim Jacket", "Levi's", 12000,
      "https://images.pexels.com/photos/1043474/pexels-photo-1043474.jpeg?auto=compress&cs=tinysrgb&w=600",
      Some("Vintage Blue"), Some(SizeLabel("L"))),
    Product("prod-003", "High-Waisted Trousers", "Zara", 7990,
      "https://images.pexels.com/photos/5439433/pexels-photo-5439433.jpeg?auto=compress&cs=tinysrgb&w=600",
      Some("Beige"), Some(SizeNumber(28))),
    Product("prod-004", "Leather Crossbody Bag", "Coach", 25000,
      "https://images.pexels.com/photos/1152077/pexels-photo-1152077.jpeg?auto=compress&cs=tinysrgb&w=600",
      Some("Black"), None),
    Product("prod-005", "Minimalist Gold Hoops", "Mejuri", 8500,
      "https://images.pexels.com/photos/2735970/pexels-photo-2735970.jpeg?auto=compress&cs=tinysrgb&w=600",
      None, None),
    Product("prod-006", "Chunky Knit Sweater", "Aritzia", 15000,
      "https://images.pexels.com/photos/7187893/pexels-photo-7187893.jpeg?auto=compress&cs=tinysrgb&w=600",
      Some("Heather Grey"), Some(SizeLabel("S"))),
    Product("prod-007", "Suede Ankle Boots", "Steve Madden", 13000,
      "https://images.pexels.com/photos/267320/pexels-photo-267320.jpeg?auto=compress&cs=tinysrgb&w=600",
      Some("Tan"), Some(SizeNumber(8))),
    Product("prod-008", "Silk Slip Dress", "Reformation", 27800,
      "https://images.pexels.com/photos/1755428/pexels-photo-1755428.jpeg?auto=compress&cs=tinysrgb&w=600",
      Some("Champagne"), Some(SizeLabel("M"))),
    Product("prod-009", "Retro Sunglasses", "Ray-Ban", 16000,
      "https://images.pexels.com/photos/1362534/pexels-photo-1362534.jpeg?auto=compress&cs=tinysrgb&w=600",
      None, None),
    Product("prod-010", "Leather Biker Jacket", "AllSaints", 45000,
      "https://images.pexels.com/photos/1124465/pexels-photo-1124465.jpeg?auto=compress&cs=tinysrgb&w=600",
      Some("Black"), Some(SizeLabel("M"))),
    Product("prod-011", "Performance Leggings", "Lululemon", 9800,
      "https://images.pexels.com/photos/4132538/pexels-photo-4132538.jpeg?auto=compress&cs=tinysrgb&w=600",
      Some("Graphite Grey"), Some(SizeLabel("M"))),
    Product("prod-012", "Embroidered Peasant Blouse", "Free People", 12800,
      "https://images.pexels.com/photos/1518177/pexels-photo-1518177.jpeg?auto=compress&cs=tinysrgb&w=600",
      Some("Ivory"), Some(SizeLabel("S")))
  ]

  const PURCHASE_HISTORY: seq<Id> := [
    "prod-001", "prod-002", "prod-011", "prod-001", "prod-010", "prod-006",
    "prod-002", "prod-001", "prod-005", "prod-003", "prod-011"
  ]

  const GENRES: seq<Genre> := [
    Genre("g1", "Streetwear", "bg-red-500",
      "https://images.pexels.com/photos/1639729/pexels-photo-1639729.jpeg?auto=compress&cs=tinysrgb&w=400",
      ["prod-002", "prod-010"]),
    Genre("g2", "Minimalist", "bg-gray-400",
      "https://images.pexels.com/photos/3768131/pexels-photo-3768131.jpeg?auto=compress&cs=tinysrgb&w=400",
      ["prod-001", "prod-003", "prod-005"]),
    Genre("g3", "Formal", "bg-slate-800",
      "https://images.pexels.com/photos/2233729/pexels-photo-2233729.jpeg?auto=compress&cs=tinysrgb&w=400",
      ["prod-008"]),
    Genre("g4", "Vintage", "bg-amber-600",
      "https://images.pexels.com/photos/2752045/pexels-photo-2752045.jpeg?auto=compress&cs=tinysrgb&w=400",
      ["prod-009"]),
    Genre("g5", "Bohemian", "bg-lime-700",
      "https://images.pexels.com/photos/1518177/pexels-photo-1518177.jpeg?auto=compress&cs=tinysrgb&w=400",
      ["prod-012"]),
    Genre("g6", "Athleisure", "bg-sky-500",
      "https://images.pexels.com/photos/4132538/pexels-photo-4132538.jpeg?auto=compress&cs=tinysrgb&w=400",
      ["prod-011"])
  ]

  const QUICK_LINKS: seq<QuickLink> := [
    QuickLink("ql-001", "summer cozy", [
        "https://images.pexels.com/photos/179909/pexels-photo-179909.jpeg?auto=compress&cs=tinysrgb&w=300",
        "https://images.pexels.com/photos/298863/pexels-photo-298863.jpeg?auto=compress&cs=tinysrgb&w=300",
        "https://images.pexels.com/photos/1021693/pexels-photo-1021693.jpeg?auto=compress&cs=tinysrgb&w=300"
      ], ["prod-001", "prod-003", "prod-008", "prod-009", "prod-004"]),
    QuickLink("ql-002", "date night", [
        "https://images.pexels.com/photos/2735970/pexels-photo-2735970.jpeg?auto=compress&cs=tinysrgb&w=300",
        "https://images.pexels.com/photos/1755428/pexels-photo-1755428.jpeg?auto=compress&cs=tinysrgb&w=300",
        "https://images.pexels.com/photos/1152077/pexels-photo-1152077.jpeg?auto=compress&cs=tinysrgb&w=300"
      ], ["prod-008", "prod-004", "prod-005", "prod-007"]),
    QuickLink("ql-003", "work from home", [
        "https://images.pexels.com/photos/7187893/pexels-photo-7187893.jpeg?auto=compress&cs=tinysrgb&w=300",
        "https://images.pexels.com/photos/4050291/pexels-photo-4050291.jpeg?auto=compress&cs=tinysrgb&w=600",
        "https://images.pexels.com/photos/1183266/pexels-photo-1183266.jpeg?auto=compress&cs=tinysrgb&w=300"
      ], ["prod-001", "prod-006", "prod-003", "prod-005"]),
    QuickLink("ql-004", "trending now", [
        "https://images.pexels.com/photos/1362534/pexels-photo-1362534.jpeg?auto=compress&cs=tinysrgb&w=300",
        "https://images.pexels.com/photos/2034346/pexels-photo-2034346.jpeg?auto=compress&cs=tinysrgb&w=300",
        "https://images.pexels.com/photos/267320/pexels-photo-267320.jpeg?auto=compress&cs=tinysrgb&w=300"
      ], ["prod-002", "prod-010", "prod-007", "prod-009"])
  ]

  /** `CHAT_USERS` in the record's insertion order, which `Object.values` follows. */
  const CHAT_USERS: seq<ChatUser> := [
    ChatUser("user-me", "Alex (You)",
      "https://images.pexels.com/photos/974911/pexels-photo-974911.jpeg?auto=compress&cs=tinysrgb&w=150"),
    ChatUser("user-friend1", "Jenna",
      "https://images.pexels.com/photos/1183266/pexels-photo-1183266.jpeg?auto=compress&cs=tinysrgb&w=300"),
    ChatUser("user-friend2", "David",
      "https://images.pexels.com/photos/837358/pexels-photo-837358.jpeg?auto=compress&cs=tinysrgb&w=300")
  ]

  const INITIAL_MESSAGES: seq<ChatMessage> := [
    ChatMessage("msg-1", "user-friend1",
      Some("Hey guys! I found the perfect dress for the wedding next month. What do you think?"),
      None, "10:30 AM"),
    ChatMessage("msg-2", "user-friend1", None,
      Some("https://images.pexels.com/photos/1755428/pexels-photo-1755428.jpeg?auto=compress&cs=tinysrgb&w=600"),
      "10:31 AM"),
    ChatMessage("msg-3", "user-me",
      Some("Wow, Jenna, that's gorgeous! The champagne color is perfect. \U{1F60D}"),
      None, "10:32 AM"),
    ChatMessage("msg-4", "user-friend2",
      Some("Looks great! Are you thinking of any specific accessories to go with it?"),
      None, "10:33 AM"),
    ChatMessage("msg-5", "user-friend1",
      Some("I was thinking maybe some minimalist gold jewelry? Like these hoops."),
      None, "10:34 AM"),
    ChatMessage("msg-6", "user-friend1", None,
      Some("https://images.pexels.com/photos/2735970/pexels-photo-2735970.jpeg?auto=compress&cs=tinysrgb&w=600"),
      "10:34 AM")
  ]
}
