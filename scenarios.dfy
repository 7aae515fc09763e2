/**
 * Clients of the Hub class that replay end-to-end scenarios from an empty registry,
 * using the handlers' contracts and the registry lemmas.
 */
module Scenarios {
  import opened Wrappers
  import opened Registry
  import opened Server

  /** A customer writes to a connected seller: only the seller's socket receives it. */
  method CustomerToSeller(profile: Info)
  {
    var srv := new Hub();
    var _ := srv.OnAddSeller("h-s1", "S1", profile);
    var _ := srv.OnAddUser("h-c1", "C1", profile);
    assert srv.allSeller == [Entry("S1", "h-s1", profile)];
    var msg := map["receverId" := "S1", "payload" := "hi"];
    var out := srv.OnSendCustomerMessage(msg);
    assert srv.allSeller[0].id == "S1";
    RelayedToUnique(out, srv.allSeller, msg, CUSTOMER_MESSAGE, 0);
    assert out == [SendTo("h-s1", CUSTOMER_MESSAGE, Forwarded(msg))];
  }

  /** With no admin registered, a seller's message to the admin is dropped. */
  method SellerToAbsentAdmin(profile: Info)
  {
    var srv := new Hub();
    var _ := srv.OnAddSeller("h-s1", "S1", profile);
    var out := srv.OnSendMessageSellerToAdmin(map["payload" := "hi"]);
    assert out == [];
  }

  /** Registering the admin strips the email, keeps the rest and announces the admin online. */
  method RegisterAdminStripsEmail()
  {
    var srv := new Hub();
    var out := srv.OnAddAdmin("h-a", map["name" := "A", "email" := "a@x.com"]);
    assert out[1] == Broadcast(ACTIVE_ADMIN, Status(true));
    assert "email" !in srv.admin && srv.admin["name"] == "A";
    assert srv.admin == map["name" := "A", "socketId" := "h-a"];
  }

  /** A seller id registered twice keeps its first connection. */
  method DuplicateSeller(profile: Info)
  {
    var srv := new Hub();
    var _ := srv.OnAddSeller("H1", "S1", profile);
    assert srv.allSeller == [Entry("S1", "H1", profile)] && srv.allSeller[0].id == "S1";
    var _ := srv.OnAddSeller("H2", "S1", profile);
    assert srv.allSeller == [Entry("S1", "H1", profile)];
    var msg := map["receverId" := "S1"];
    var out := srv.OnSendCustomerMessage(msg);
    RelayedToUnique(out, srv.allSeller, msg, CUSTOMER_MESSAGE, 0);
    assert out == [SendTo("H1", CUSTOMER_MESSAGE, Forwarded(msg))];
  }

  /** A disconnecting seller: admin-offline first, then lists without it; later messages drop. */
  method SellerDisconnects(profile: Info)
  {
    var srv := new Hub();
    var _ := srv.OnAddSeller("h-s1", "S1", profile);
    assert srv.allSeller == [Entry("S1", "h-s1", profile)];
    var out := srv.OnDisconnect("h-s1");
    WithoutSingle(Entry("S1", "h-s1", profile), "h-s1");
    assert srv.allSeller == [];
    assert out == [Broadcast(ACTIVE_ADMIN, Status(false)),
                   Broadcast(ACTIVE_SELLER, Entries([])),
                   Broadcast(ACTIVE_CUSTOMER, Entries([]))];
    var late := srv.OnSendCustomerMessage(map["receverId" := "S1"]);
    assert late == [];
  }
}
