/** The JSON landing source (src/02_setup/03_landing_json.py): raw SAP
    client records with nested address, company and preference groups,
    written as JSON to `landing-zone`. */
module LandingJson {
  import opened Calendar
  import Entropy
  import opened Storage

  const Bucket := "landing-zone"
  const KeyPrefix := "dataway/sap/clients/clients_data_"
  const KeySuffix := ".json"
  const MinRecords := 1000
  const MaxRecords := 10000

  const Statuses: seq<string> := ["ATIVO", "INATIVO", "PENDENTE"]
  /** The company sectors of this source; `Industrial` is not among them. */
  const Sectors: seq<string> := ["Tecnologia", "Varejo", "Saúde", "Educação", "Financeiro"]
  const Channels: seq<string> := ["email", "telefone", "sms"]

  /** The 11 top-level keys and the keys of the three nested groups. */
  const Columns: seq<string> := [
    "id", "nome", "email", "telefone", "endereco", "data_nascimento",
    "data_cadastro", "salario", "status", "empresa", "preferencias"]
  const AddressKeys: seq<string> := ["rua", "cidade", "estado", "cep", "pais"]
  const CompanyKeys: seq<string> := ["nome", "cnpj", "setor"]
  const PreferenceKeys: seq<string> := ["comunicacao", "idioma", "newsletter"]

  datatype Address = Address(rua: string, cidade: string, estado: string, cep: string, pais: string)

  datatype Company = Company(nome: string, cnpj: string, setor: string)

  datatype Preferences = Preferences(comunicacao: string, idioma: string, newsletter: bool)

  /** One landing record; dates are text, the salary is in cents. */
  datatype ClientRecord = ClientRecord(
    id: string,
    nome: string,
    email: string,
    telefone: string,
    endereco: Address,
    data_nascimento: string,
    data_cadastro: string,
    salario: int,
    status: string,
    empresa: Company,
    preferencias: Preferences)

  /** What every generated JSON landing record satisfies. */
  predicate RecordOk(r: ClientRecord)
  {
    r.endereco.pais == "Brasil" &&
    IsCalendarDate(r.data_nascimento) && IsCalendarDate(r.data_cadastro) &&
    1000 * 100 <= r.salario <= 15000 * 100 &&
    r.status in Statuses &&
    r.empresa.setor in Sectors &&
    r.preferencias.comunicacao in Channels &&
    r.preferencias.idioma == "pt-BR"
  }

  /** The record as the nested dictionary handed to `json.dumps`: the three
      groups are non-empty dictionaries with their fixed keys, every other
      value is flat. */
  function Row(r: ClientRecord): (row: seq<Field>)
    ensures Keys(row) == Columns
    ensures IsGroup(row[4].1, AddressKeys)
    ensures IsGroup(row[9].1, CompanyKeys)
    ensures IsGroup(row[10].1, PreferenceKeys)
    ensures forall i :: 0 <= i < |row| ==> (row[i].1.Obj? <==> i in {4, 9, 10})
    ensures row[5].1.Text? && row[6].1.Text?
  {
    Dict(Columns, [
      Text(r.id), Text(r.nome), Text(r.email), Text(r.telefone),
      Obj(Dict(AddressKeys, [
        Text(r.endereco.rua), Text(r.endereco.cidade), Text(r.endereco.estado),
        Text(r.endereco.cep), Text(r.endereco.pais)])),
      Text(r.data_nascimento), Text(r.data_cadastro), Fixed(r.salario, 2), Text(r.status),
      Obj(Dict(CompanyKeys, [Text(r.empresa.nome), Text(r.empresa.cnpj), Text(r.empresa.setor)])),
      Obj(Dict(PreferenceKeys, [
        Text(r.preferencias.comunicacao), Text(r.preferencias.idioma),
        Bool(r.preferencias.newsletter)]))])
  }

  /** The key `dataway/sap/clients/clients_data_{timestamp}.json`;
      the timestamp reads back out of it. */
  function Key(timestamp: int): (key: string)
    ensures IsKey(key, KeyPrefix, KeySuffix)
    ensures TimestampOf(key, KeyPrefix, KeySuffix) == timestamp
  {
    ObjectKeyRoundTrip(KeyPrefix, timestamp, KeySuffix);
    ObjectKey(KeyPrefix, timestamp, KeySuffix)
  }

  /** One iteration of the loop in `generate_fake_data_records`. `texts` are
      the record's ten Faker texts, in the order the literal asks for them,
      each stored unchanged in its field. */
  method DrawRecord(rng: Entropy.Random, faker: Entropy.Faker)
    returns (r: ClientRecord, ghost texts: seq<(Entropy.Attribute, string)>)
    modifies rng, faker
    ensures RecordOk(r)
    ensures faker.made == old(faker.made) + texts && |texts| == 10
    ensures texts[0] == (Entropy.Uuid4, r.id)
    ensures texts[1] == (Entropy.Name, r.nome)
    ensures texts[2] == (Entropy.Email, r.email)
    ensures texts[3] == (Entropy.PhoneNumber, r.telefone)
    ensures texts[4] == (Entropy.StreetAddress, r.endereco.rua)
    ensures texts[5] == (Entropy.City, r.endereco.cidade)
    ensures texts[6] == (Entropy.State, r.endereco.estado)
    ensures texts[7] == (Entropy.Postcode, r.endereco.cep)
    ensures texts[8] == (Entropy.Company, r.empresa.nome)
    ensures texts[9] == (Entropy.Cnpj, r.empresa.cnpj)
  {
    var attributes := [
      Entropy.Uuid4, Entropy.Name, Entropy.Email, Entropy.PhoneNumber, Entropy.StreetAddress,
      Entropy.City, Entropy.State, Entropy.Postcode, Entropy.Company, Entropy.Cnpj];
    var t := faker.FakeEach(attributes);
    var id, nome, email, telefone, rua, cidade, estado, cep, empresa, cnpj :=
      t[0].1, t[1].1, t[2].1, t[3].1, t[4].1, t[5].1, t[6].1, t[7].1, t[8].1, t[9].1;
    texts := t;
    var nascimento := Entropy.DateOfBirth(18, 80);
    var cadastro := Entropy.DateBetween(2);
    var salario := rng.Uniform(1000, 15000, 2);
    var status, _ := rng.Choice(Statuses);
    var setor, _ := rng.Choice(Sectors);
    var comunicacao, _ := rng.Choice(Channels);
    var newsletter, _ := rng.Choice([true, false]);
    FormatIsCalendarDate(nascimento);
    FormatIsCalendarDate(cadastro);
    r := ClientRecord(
      id, nome, email, telefone, Address(rua, cidade, estado, cep, "Brasil"),
      FormatDate(nascimento), FormatDate(cadastro), salario, status,
      Company(empresa, cnpj, setor), Preferences(comunicacao, "pt-BR", newsletter));
  }

  /** `generate_fake_data_records(num_records)`: `num_records` records in the
      order drawn (none when the count is not positive). */
  method GenerateRecords(rng: Entropy.Random, faker: Entropy.Faker, numRecords: int)
    returns (records: seq<ClientRecord>)
    modifies rng, faker
    ensures |records| == if numRecords < 0 then 0 else numRecords
    ensures forall i :: 0 <= i < |records| ==> RecordOk(records[i])
  {
    records := [];
    var n := if numRecords < 0 then 0 else numRecords;
    for i := 0 to n
      invariant |records| == i
      invariant forall j :: 0 <= j < i ==> RecordOk(records[j])
    {
      var r, _ := DrawRecord(rng, faker);
      records := records + [r];
    }
  }

  /** `main`: draw the count, generate, and save as JSON under the key of the
      clock reading `now`. */
  method RunLandingJson(rng: Entropy.Random, faker: Entropy.Faker, store: ObjectStore, now: int)
    returns (ok: bool, ghost records: seq<ClientRecord>)
    modifies rng, faker, store
    ensures MinRecords <= |records| <= MaxRecords
    ensures forall i :: 0 <= i < |records| ==> RecordOk(records[i])
    ensures ok ==> store.objects == old(store.objects)[(Bucket, Key(now)) :=
      Object(Payload(Json, Table(records, Row)), "application/json")]
    ensures !ok ==> store.objects == old(store.objects)
  {
    var numRecords := rng.RandInt(MinRecords, MaxRecords);
    var data := GenerateRecords(rng, faker, numRecords);
    records := data;
    ok := Save(store, Table(data, Row), Bucket, Key(now), Json);
  }
}
