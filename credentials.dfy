/** Registry credentials and the credential header an image pull carries. */
module Credentials {
  import opened Types

  /** Optional registry credentials; each field is independently optional.
      The fields double as the getters user_name, password, email, server. */
  datatype DockerRegistryAuthConfig = DockerRegistryAuthConfig(
    userName: Option<string>,
    password: Option<string>,
    email: Option<string>,
    server: Option<string>)
  {
    /** The builder setting the user name. */
    function WithUserName(value: string): (c: DockerRegistryAuthConfig)
      ensures c.userName == Some(value)
      ensures c.password == password && c.email == email && c.server == server
    {
      this.(userName := Some(value))
    }

    /** The builder setting the password. */
    function WithPassword(value: string): (c: DockerRegistryAuthConfig)
      ensures c.password == Some(value)
      ensures c.userName == userName && c.email == email && c.server == server
    {
      this.(password := Some(value))
    }

    /** The builder setting the e-mail address. */
    function WithEmail(value: string): (c: DockerRegistryAuthConfig)
      ensures c.email == Some(value)
      ensures c.userName == userName && c.password == password && c.server == server
    {
      this.(email := Some(value))
    }

    /** The builder setting the registry server address. */
    function WithServer(value: string): (c: DockerRegistryAuthConfig)
      ensures c.server == Some(value)
      ensures c.userName == userName && c.password == password && c.email == email
    {
      this.(server := Some(value))
    }
  }

  /** Credentials with no field set. */
  function DefaultAuthConfig(): (c: DockerRegistryAuthConfig)
    ensures c.userName.None? && c.password.None? && c.email.None? && c.server.None?
  {
    DockerRegistryAuthConfig(None, None, None, None)
  }

  /** The serialized credential header. Empty is the empty string; Json is the
      encoding of a JSON object whose members are the given name/value pairs
      (member order and string escaping are not modelled). */
  datatype RegistryAuthHeader = Empty | Json(object: map<string, string>)

  /** The JSON member names of the engine's credential object. */
  const UserNameField := "username"
  const PasswordField := "password"
  const EmailField := "email"
  const ServerField := "serveraddress"

  /** The credential field that a JSON member name stands for. */
  function FieldOf(creds: DockerRegistryAuthConfig, name: string): Option<string> {
    if name == UserNameField then creds.userName
    else if name == PasswordField then creds.password
    else if name == EmailField then creds.email
    else if name == ServerField then creds.server
    else None
  }

  /** The members the credential object holds: one per present field, named
      as the engine names it. */
  function AuthObject(creds: DockerRegistryAuthConfig): (r: map<string, string>)
    ensures r.Keys <= {UserNameField, PasswordField, EmailField, ServerField}
    ensures forall name :: name in r ==> FieldOf(creds, name) == Some(r[name])
  {
    map name | name in {UserNameField, PasswordField, EmailField, ServerField} && FieldOf(creds, name).Some?
      :: FieldOf(creds, name).value
  }

  /** serialize_registry_creds: no credentials give the empty header; present
      credentials are copied field by field, only where set, onto a fresh
      credential object, which is then encoded. */
  method SerializeRegistryCreds(credentials: Option<DockerRegistryAuthConfig>) returns (header: RegistryAuthHeader)
    ensures credentials.None? <==> header == Empty
    ensures credentials.Some? ==> header == Json(AuthObject(credentials.value))
  {
    if credentials.None? {
      return Empty;
    }
    var creds := credentials.value;
    var authConfig: map<string, string> := map[];
    if creds.userName.Some? {
      authConfig := authConfig[UserNameField := creds.userName.value];
    }
    if creds.password.Some? {
      authConfig := authConfig[PasswordField := creds.password.value];
    }
    if creds.email.Some? {
      authConfig := authConfig[EmailField := creds.email.value];
    }
    if creds.server.Some? {
      authConfig := authConfig[ServerField := creds.server.value];
    }
    AuthObjectFields(creds);
    assert authConfig.Keys == AuthObject(creds).Keys;
    header := Json(authConfig);
  }

  /** The credential object holds exactly the present fields, each under its
      engine name and with its value. */
  lemma AuthObjectFields(creds: DockerRegistryAuthConfig)
    ensures UserNameField in AuthObject(creds) <==> creds.userName.Some?
    ensures PasswordField in AuthObject(creds) <==> creds.password.Some?
    ensures EmailField in AuthObject(creds) <==> creds.email.Some?
    ensures ServerField in AuthObject(creds) <==> creds.server.Some?
    ensures creds.userName.Some? ==> AuthObject(creds)[UserNameField] == creds.userName.value
    ensures creds.password.Some? ==> AuthObject(creds)[PasswordField] == creds.password.value
    ensures creds.email.Some? ==> AuthObject(creds)[EmailField] == creds.email.value
    ensures creds.server.Some? ==> AuthObject(creds)[ServerField] == creds.server.value
    ensures AuthObject(creds).Keys <= {UserNameField, PasswordField, EmailField, ServerField}
  {
  }

  /** Default credentials encode an empty object, which is not the empty
      header that absent credentials give. */
  lemma DefaultAuthObjectIsEmpty()
    ensures AuthObject(DefaultAuthConfig()) == map[]
    ensures Json(AuthObject(DefaultAuthConfig())) != Empty
  {
  }

  /** Built with only a user name and a password, the credential object holds
      exactly those two members. */
  lemma UserPasswordObject(user: string, pass: string)
    ensures AuthObject(DefaultAuthConfig().WithUserName(user).WithPassword(pass))
         == map[UserNameField := user, PasswordField := pass]
  {
    var creds := DefaultAuthConfig().WithUserName(user).WithPassword(pass);
    AuthObjectFields(creds);
  }
}
