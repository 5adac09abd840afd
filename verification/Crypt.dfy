/**
 crypt/crypt.go: a passphrase-encrypted container, rewritten in place.

   "v0:" || salt (32 bytes) || nonce (12 bytes) || sealed text

 The key derivation (scrypt, section 6 of RFC 7914) and AES-GCM are parameters.
 */
module Crypt {
  import opened Wrappers
  import opened Paths
  import opened Text
  import opened World
  import opened Env

  const SALT_LEN := 32
  const NONCE_LEN := 12
  const PREFIX := "v0:"
  const HEADER_LEN := |PREFIX| + SALT_LEN + NONCE_LEN

  function Container(s: Sys, pass: string, salt: string, nonce: string, text: string): string {
    PREFIX + salt + nonce + s.seal(s.kdf(pass, salt), nonce, text)
  }

  function IsContainer(data: string): bool { HasPrefix(data, PREFIX) }

  // ---- What the three operations do ----

  function CheckEncryptionSpec(s: Sys, w: World, file: string): (World, Option<bool>) {
    var r := Read(s, w, file);
    (r.0, match r.1 case None => None case Some(data) => Some(IsContainer(data)))
  }

  // Reading the file, drawing the salt and the nonce, and writing can each fail.
  function EncryptSpec(s: Sys, w: World, file: string, pass: string, salt: string, nonce: string): (World, bool) {
    var r := Read(s, w, file);
    if r.1.None? then (r.0, false)
    else if !Up(s, r.0) then (Next(s, r.0), false)
    else if !Up(s, Next(s, r.0)) then (Next(s, Next(s, r.0)), false)
    else Write(s, Next(s, Next(s, r.0)), file, Container(s, pass, salt, nonce, r.1.value))
  }

  // Panicked: a slice expression went out of range and ended the process.
  datatype Decrypted = Done | Failed | Panicked

  function DecryptSpec(s: Sys, w: World, file: string, pass: string): (World, Decrypted) {
    var r := Read(s, w, file);
    if r.1.None? then (r.0, Failed)
    else if |r.1.value| < HEADER_LEN then (Halt(r.0), Panicked)
    else
      var data := r.1.value;
      var salt := data[|PREFIX|..|PREFIX| + SALT_LEN];
      var nonce := data[|PREFIX| + SALT_LEN..HEADER_LEN];
      match s.open(s.kdf(pass, salt), nonce, data[HEADER_LEN..])
      case None => (r.0, Failed)
      case Some(text) =>
        var a := Write(s, r.0, file, text);
        (a.0, if a.1 then Done else Failed)
  }

  // ---- The operations ----

  method CheckEncryption(env: Env, source: string) returns (encrypted: Option<bool>)
    modifies env
    ensures (env.w, encrypted) == CheckEncryptionSpec(env.sys, old(env.w), source)
  {
    var data := env.ReadFile(source);
    if data.None? { return None; }
    return Some(HasPrefix(data.value, PREFIX));
  }

  method EncryptFile(env: Env, sourceFile: string, passphrase: string, salt: string, nonce: string)
    returns (ok: bool)
    modifies env
    ensures (env.w, ok) == EncryptSpec(env.sys, old(env.w), sourceFile, passphrase, salt, nonce)
  {
    var source := env.ReadFile(sourceFile);
    if source.None? { return false; }
    ok := env.Attempt();
    if !ok { return; }
    var key := env.sys.kdf(passphrase, salt);
    ok := env.Attempt();
    if !ok { return; }
    var sealedData := env.sys.seal(key, nonce, source.value);
    var ciphertext := "";
    ciphertext := ciphertext + PREFIX;
    ciphertext := ciphertext + salt;
    ciphertext := ciphertext + nonce;
    ciphertext := ciphertext + sealedData;
    assert ciphertext == Container(env.sys, passphrase, salt, nonce, source.value);
    ok := env.WriteFile(sourceFile, ciphertext);
  }

  method DecryptFile(env: Env, sourceFile: string, passphrase: string) returns (r: Decrypted)
    modifies env
    ensures (env.w, r) == DecryptSpec(env.sys, old(env.w), sourceFile, passphrase)
  {
    var file := env.ReadFile(sourceFile);
    if file.None? { return Failed; }
    var ciphertext := file.value;
    if |ciphertext| < |PREFIX| { env.Fatal(); return Panicked; }
    ciphertext := ciphertext[|PREFIX|..];
    if |ciphertext| < SALT_LEN { env.Fatal(); return Panicked; }
    var salt := ciphertext[..SALT_LEN];
    ciphertext := ciphertext[SALT_LEN..];
    var key := env.sys.kdf(passphrase, salt);
    if |ciphertext| < NONCE_LEN { env.Fatal(); return Panicked; }
    var nonce := ciphertext[..NONCE_LEN];
    ciphertext := ciphertext[NONCE_LEN..];
    assert salt == file.value[|PREFIX|..|PREFIX| + SALT_LEN];
    assert nonce == file.value[|PREFIX| + SALT_LEN..HEADER_LEN];
    assert ciphertext == file.value[HEADER_LEN..];
    var output := env.sys.open(key, nonce, ciphertext);
    if output.None? { return Failed; }
    var ok := env.WriteFile(sourceFile, output.value);
    return if ok then Done else Failed;
  }

  // ---- Container laws ----

  lemma ContainerParts(s: Sys, pass: string, salt: string, nonce: string, text: string)
    requires |salt| == SALT_LEN && |nonce| == NONCE_LEN
    ensures var c := Container(s, pass, salt, nonce, text);
            && |c| >= HEADER_LEN && IsContainer(c)
            && c[|PREFIX|..|PREFIX| + SALT_LEN] == salt
            && c[|PREFIX| + SALT_LEN..HEADER_LEN] == nonce
            && c[HEADER_LEN..] == s.seal(s.kdf(pass, salt), nonce, text)
  {}

  // Encrypting and decrypting in place restores the file system, and in between
  // the file is recognised as encrypted.
  lemma ContainerRoundTrip(s: Sys, w: World, file: string, pass: string, salt: string, nonce: string)
    requires Sealing(s) && FaultFree(s) && w.alive && Tree(w.fs)
    requires Resolve(s.cwd, file) in w.fs.files && Resolve(s.cwd, file) != []
    requires |salt| == SALT_LEN && |nonce| == NONCE_LEN
    ensures var e := EncryptSpec(s, w, file, pass, salt, nonce);
            var d := DecryptSpec(s, e.0, file, pass);
            && e.1 && CheckEncryptionSpec(s, e.0, file).1 == Some(true)
            && d.1 == Done && d.0.fs == w.fs && d.0.alive
  {
    var p := Resolve(s.cwd, file);
    var text := w.fs.files[p];
    assert CanWrite(w.fs, p);
    ContainerParts(s, pass, salt, nonce, text);
    var e := EncryptSpec(s, w, file, pass, salt, nonce);
    assert e.0.fs == Put(w.fs, p, Container(s, pass, salt, nonce, text));
    var d := DecryptSpec(s, e.0, file, pass);
    assert d.0.fs.files == w.fs.files;
  }

  // Decryption slices out of range exactly on files shorter than the header.
  lemma DecryptPanicsIff(s: Sys, w: World, file: string, pass: string)
    ensures DecryptSpec(s, w, file, pass).1 == Panicked <==>
              Read(s, w, file).1.Some? && |Read(s, w, file).1.value| < HEADER_LEN
  {}

  // Encryption succeeds exactly if the file is there and all four calls, reading it,
  // drawing salt and nonce, and writing it, go through; and else leaves the file or a
  // front of the container.
  lemma EncryptIff(s: Sys, w: World, file: string, pass: string, salt: string, nonce: string)
    ensures var p := Resolve(s.cwd, file); var r := EncryptSpec(s, w, file, pass, salt, nonce);
            var w1 := Next(s, w); var w2 := Next(s, w1); var w3 := Next(s, w2);
            && (r.1 <==> Legible(s, w, p) && Up(s, w1) && Up(s, w2) && Up(s, w3) && CanWrite(w.fs, p))
            && (r.1 ==> r.0.fs == Put(w.fs, p, Container(s, pass, salt, nonce, w.fs.files[p])))
            && (!Legible(s, w, p) || !Up(s, w1) || !Up(s, w2) ==> r.0.fs == w.fs)
  {}

  // Decryption succeeds exactly if the file is read, long enough, opens and is written.
  lemma DecryptIff(s: Sys, w: World, file: string, pass: string)
    ensures var p := Resolve(s.cwd, file); var r := DecryptSpec(s, w, file, pass);
            r.1 == Done <==>
              && Legible(s, w, p) && Up(s, Next(s, w)) && CanWrite(w.fs, p) && |w.fs.files[p]| >= HEADER_LEN
              && var f := w.fs.files[p];
                 s.open(s.kdf(pass, f[3..35]), f[35..47], f[47..]).Some?
  {}

  // A container that does not open under the passphrase stays as it is.
  lemma WrongPassphraseKeepsFile(s: Sys, w: World, file: string, pass: string, salt: string, nonce: string,
                                 sealed: string)
    requires |salt| == SALT_LEN && |nonce| == NONCE_LEN
    requires Resolve(s.cwd, file) in w.fs.files
    requires w.fs.files[Resolve(s.cwd, file)] == PREFIX + salt + nonce + sealed
    requires s.open(s.kdf(pass, salt), nonce, sealed) == None
    ensures var d := DecryptSpec(s, w, file, pass); d.1 == Failed && d.0.fs == w.fs
  {
    var c := PREFIX + salt + nonce + sealed;
    assert c[|PREFIX|..|PREFIX| + SALT_LEN] == salt;
    assert c[|PREFIX| + SALT_LEN..HEADER_LEN] == nonce;
    assert c[HEADER_LEN..] == sealed;
  }

  // A gzip stream is never taken for a container.
  lemma GzipIsNoContainer(s: Sys, b: string)
    requires Lawful(s) && s.gunzip(b).Some?
    ensures !IsContainer(b)
  {}

  // Given a directory, EncryptFile fails and changes nothing on disk.
  lemma EncryptDirectoryInert(s: Sys, w: World, dir: string, pass: string, salt: string, nonce: string)
    requires Resolve(s.cwd, dir) !in w.fs.files
    ensures EncryptSpec(s, w, dir, pass, salt, nonce) == (Next(s, w), false)
  {}
}
