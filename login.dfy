/** The login screen's demo credentials: one e-mail per role, all with the
    same password, which the login ignores. */
module LoginScreen {
  import opened Text
  import opened Types
  import opened Auth

  datatype DemoCredential = DemoCredential(role: Role, email: string, password: string)

  const DemoCredentials := [
    DemoCredential(Owner, "owner@demo.com", "demo123"),
    DemoCredential(Administrador, "admin@demo.com", "demo123"),
    DemoCredential(Cajero, "cajero@demo.com", "demo123")
  ]

  lemma OwnerDemoEmail(e: string)
    requires e == "owner@demo.com"
    ensures RoleFromEmail(e) == Owner
  {
    assert e[..5] == "owner";
    assert IsPrefix("owner", e);
  }

  lemma AdminDemoEmail(e: string)
    requires e == "admin@demo.com"
    ensures RoleFromEmail(e) == Administrador
  {
    ContainedChars(e, "owner");
    assert "owner"[1] == 'w';
    assert 'w' !in e;
    assert e[..5] == "admin";
    assert IsPrefix("admin", e);
  }

  lemma CashierDemoEmail(e: string)
    requires e == "cajero@demo.com"
    ensures RoleFromEmail(e) == Cajero
  {
    ContainedChars(e, "owner");
    assert "owner"[1] == 'w';
    assert 'w' !in e;
    ContainedChars(e, "admin");
    assert "admin"[3] == 'i';
    assert 'i' !in e;
  }

  /** Signing in with any of the demo credentials gives the role it is
      listed under. */
  lemma DemoCredentialsGiveTheirRoles()
    ensures forall d :: d in DemoCredentials ==> RoleFromEmail(d.email) == d.role
  {
    forall d | d in DemoCredentials ensures RoleFromEmail(d.email) == d.role {
      match d.role
      case Owner => OwnerDemoEmail(d.email);
      case Administrador => AdminDemoEmail(d.email);
      case Cajero => CashierDemoEmail(d.email);
    }
  }
}
