/** The silver zone (src/02_setup/04_silver_zone.py): enriched SAP client
    records in five nested groups with a fixed provenance block, written as
    JSON to `silver-zone`. */
module SilverZone {
  import opened Calendar
  import Entropy
  import opened Storage

  const Bucket := "silver-zone"
  const KeyPrefix := "enriched/sap/clients_silver_"
  const KeySuffix := ".json"
  const MinRecords := 1500
  const MaxRecords := 6000

  const Genders: seq<string> := ["M", "F", "O"]
  const MaritalStatuses: seq<string> := ["SOLTEIRO", "CASADO", "DIVORCIADO", "VIUVO"]
  const AddressKinds: seq<string> := ["RESIDENCIAL", "COMERCIAL", "CORRESPONDENCIA"]
  const Sectors: seq<string> := ["Tecnologia", "Varejo", "Saúde", "Educação", "Financeiro", "Industrial"]
  const Channels: seq<string> := ["EMAIL", "SMS", "WHATSAPP", "TELEFONE"]
  const ProductInterests: seq<string> := ["Tecnologia", "Roupas", "Casa", "Esportes", "Livros"]

  /** The top-level keys and the keys of the five groups (6, 7, 5, 4 and 5). */
  const Columns: seq<string> := [
    "cliente_id", "dados_pessoais", "endereco", "dados_profissionais",
    "preferencias_cliente", "metadados"]
  const PersonalKeys: seq<string> := [
    "nome_completo", "email_principal", "telefone_principal", "data_nascimento",
    "genero", "estado_civil"]
  const AddressKeys: seq<string> := [
    "logradouro", "bairro", "cidade", "estado", "cep", "pais", "tipo_endereco"]
  const ProfessionalKeys: seq<string> := [
    "empresa", "cargo", "salario_bruto", "data_admissao", "setor"]
  const PreferenceKeys: seq<string> := [
    "canal_preferido", "idioma", "recebe_promocoes", "tipo_produto_interesse"]
  const MetadataKeys: seq<string> := [
    "data_cadastro", "data_ultima_atualizacao", "origem_dados", "versao_dados",
    "status_processamento"]

  datatype PersonalData = PersonalData(
    nome_completo: string, email_principal: string, telefone_principal: string,
    data_nascimento: string, genero: string, estado_civil: string)

  datatype Address = Address(
    logradouro: string, bairro: string, cidade: string, estado: string, cep: string,
    pais: string, tipo_endereco: string)

  /** The salary is in cents. */
  datatype ProfessionalData = ProfessionalData(
    empresa: string, cargo: string, salario_bruto: int, data_admissao: string, setor: string)

  datatype Preferences = Preferences(
    canal_preferido: string, idioma: string, recebe_promocoes: bool, tipo_produto_interesse: string)

  datatype Metadata = Metadata(
    data_cadastro: string, data_ultima_atualizacao: string, origem_dados: string,
    versao_dados: string, status_processamento: string)

  datatype SilverRecord = SilverRecord(
    cliente_id: string,
    dados_pessoais: PersonalData,
    endereco: Address,
    dados_profissionais: ProfessionalData,
    preferencias_cliente: Preferences,
    metadados: Metadata)

  /** What every generated silver record satisfies. */
  predicate SilverOk(r: SilverRecord)
  {
    IsCalendarDate(r.dados_pessoais.data_nascimento) &&
    r.dados_pessoais.genero in Genders &&
    r.dados_pessoais.estado_civil in MaritalStatuses &&
    r.endereco.pais == "Brasil" &&
    r.endereco.tipo_endereco in AddressKinds &&
    3000 * 100 <= r.dados_profissionais.salario_bruto <= 20000 * 100 &&
    IsCalendarDate(r.dados_profissionais.data_admissao) &&
    r.dados_profissionais.setor in Sectors &&
    r.preferencias_cliente.canal_preferido in Channels &&
    r.preferencias_cliente.idioma == "pt-BR" &&
    r.preferencias_cliente.tipo_produto_interesse in ProductInterests &&
    IsCalendarDate(r.metadados.data_cadastro) &&
    IsCalendarDateTime(r.metadados.data_ultima_atualizacao) &&
    r.metadados.origem_dados == "SAP" &&
    r.metadados.versao_dados == "1.0" &&
    r.metadados.status_processamento == "PROCESSADO"
  }

  /** The record as the nested dictionary handed to `json.dumps`: an id and
      five non-empty groups with their fixed keys. */
  function Row(r: SilverRecord): (row: seq<Field>)
    ensures Keys(row) == Columns
    ensures row[0].1.Text?
    ensures IsGroup(row[1].1, PersonalKeys)
    ensures IsGroup(row[2].1, AddressKeys)
    ensures IsGroup(row[3].1, ProfessionalKeys)
    ensures IsGroup(row[4].1, PreferenceKeys)
    ensures IsGroup(row[5].1, MetadataKeys)
  {
    var p := r.dados_pessoais;
    var e := r.endereco;
    var w := r.dados_profissionais;
    var c := r.preferencias_cliente;
    var m := r.metadados;
    Dict(Columns, [
      Text(r.cliente_id),
      Obj(Dict(PersonalKeys, [
        Text(p.nome_completo), Text(p.email_principal), Text(p.telefone_principal),
        Text(p.data_nascimento), Text(p.genero), Text(p.estado_civil)])),
      Obj(Dict(AddressKeys, [
        Text(e.logradouro), Text(e.bairro), Text(e.cidade), Text(e.estado), Text(e.cep),
        Text(e.pais), Text(e.tipo_endereco)])),
      Obj(Dict(ProfessionalKeys, [
        Text(w.empresa), Text(w.cargo), Fixed(w.salario_bruto, 2), Text(w.data_admissao),
        Text(w.setor)])),
      Obj(Dict(PreferenceKeys, [
        Text(c.canal_preferido), Text(c.idioma), Bool(c.recebe_promocoes),
        Text(c.tipo_produto_interesse)])),
      Obj(Dict(MetadataKeys, [
        Text(m.data_cadastro), Text(m.data_ultima_atualizacao), Text(m.origem_dados),
        Text(m.versao_dados), Text(m.status_processamento)]))])
  }

  /** The key `enriched/sap/clients_silver_{timestamp}.json`;
      the timestamp reads back out of it. */
  function Key(timestamp: int): (key: string)
    ensures IsKey(key, KeyPrefix, KeySuffix)
    ensures TimestampOf(key, KeyPrefix, KeySuffix) == timestamp
  {
    ObjectKeyRoundTrip(KeyPrefix, timestamp, KeySuffix);
    ObjectKey(KeyPrefix, timestamp, KeySuffix)
  }

  /** One iteration of the loop in `generate_silver_data`. `texts` are the
      record's eleven Faker texts in order: the name and the e-mail are drawn
      once, before the literal, and stored unchanged as `nome_completo` and
      `email_principal`; the other nine follow in the literal's order. */
  method DrawSilverRecord(rng: Entropy.Random, faker: Entropy.Faker)
    returns (r: SilverRecord, ghost texts: seq<(Entropy.Attribute, string)>)
    modifies rng, faker
    ensures SilverOk(r)
    ensures faker.made == old(faker.made) + texts && |texts| == 11
    ensures texts[0] == (Entropy.Name, r.dados_pessoais.nome_completo)
    ensures texts[1] == (Entropy.Email, r.dados_pessoais.email_principal)
    ensures texts[2] == (Entropy.Uuid4, r.cliente_id)
    ensures texts[3] == (Entropy.PhoneNumber, r.dados_pessoais.telefone_principal)
    ensures texts[4] == (Entropy.StreetAddress, r.endereco.logradouro)
    ensures texts[5] == (Entropy.CitySuffix, r.endereco.bairro)
    ensures texts[6] == (Entropy.City, r.endereco.cidade)
    ensures texts[7] == (Entropy.State, r.endereco.estado)
    ensures texts[8] == (Entropy.Postcode, r.endereco.cep)
    ensures texts[9] == (Entropy.Company, r.dados_profissionais.empresa)
    ensures texts[10] == (Entropy.Job, r.dados_profissionais.cargo)
  {
    var attributes := [
      Entropy.Name, Entropy.Email, Entropy.Uuid4, Entropy.PhoneNumber, Entropy.StreetAddress,
      Entropy.CitySuffix, Entropy.City, Entropy.State, Entropy.Postcode, Entropy.Company,
      Entropy.Job];
    var t := faker.FakeEach(attributes);
    var nome, email, clienteId, telefone, logradouro, bairro, cidade, estado, cep, empresa, cargo :=
      t[0].1, t[1].1, t[2].1, t[3].1, t[4].1, t[5].1, t[6].1, t[7].1, t[8].1, t[9].1, t[10].1;
    texts := t;
    var nascimento := Entropy.DateOfBirth(18, 80);
    var genero, _ := rng.Choice(Genders);
    var estadoCivil, _ := rng.Choice(MaritalStatuses);
    var tipoEndereco, _ := rng.Choice(AddressKinds);
    var salario := rng.Uniform(3000, 20000, 2);
    var admissao := Entropy.DateBetween(5);
    var setor, _ := rng.Choice(Sectors);
    var canal, _ := rng.Choice(Channels);
    var promocoes, _ := rng.Choice([true, false]);
    var interesse, _ := rng.Choice(ProductInterests);
    var cadastro := Entropy.DateBetween(2);
    var agora := Entropy.LocalTime();
    FormatIsCalendarDate(nascimento);
    FormatIsCalendarDate(admissao);
    FormatIsCalendarDate(cadastro);
    FormatIsCalendarDateTime(agora);
    r := SilverRecord(
      clienteId,
      PersonalData(nome, email, telefone, FormatDate(nascimento), genero, estadoCivil),
      Address(logradouro, bairro, cidade, estado, cep, "Brasil", tipoEndereco),
      ProfessionalData(empresa, cargo, salario, FormatDate(admissao), setor),
      Preferences(canal, "pt-BR", promocoes, interesse),
      Metadata(FormatDate(cadastro), FormatDateTime(agora), "SAP", "1.0", "PROCESSADO"));
  }

  /** `generate_silver_data(num_records)`: `num_records` records in the order
      drawn (none when the count is not positive). */
  method GenerateSilverData(rng: Entropy.Random, faker: Entropy.Faker, numRecords: int)
    returns (records: seq<SilverRecord>)
    modifies rng, faker
    ensures |records| == if numRecords < 0 then 0 else numRecords
    ensures forall i :: 0 <= i < |records| ==> SilverOk(records[i])
  {
    records := [];
    var n := if numRecords < 0 then 0 else numRecords;
    for i := 0 to n
      invariant |records| == i
      invariant forall j :: 0 <= j < i ==> SilverOk(records[j])
    {
      var r, _ := DrawSilverRecord(rng, faker);
      records := records + [r];
    }
  }

  /** `main`: draw the count, generate, and save as JSON under the key of the
      clock reading `now`. */
  method RunSilverZone(rng: Entropy.Random, faker: Entropy.Faker, store: ObjectStore, now: int)
    returns (ok: bool, ghost records: seq<SilverRecord>)
    modifies rng, faker, store
    ensures MinRecords <= |records| <= MaxRecords
    ensures forall i :: 0 <= i < |records| ==> SilverOk(records[i])
    ensures ok ==> store.objects == old(store.objects)[(Bucket, Key(now)) :=
      Object(Payload(Json, Table(records, Row)), "application/json")]
    ensures !ok ==> store.objects == old(store.objects)
  {
    var numRecords := rng.RandInt(MinRecords, MaxRecords);
    var data := GenerateSilverData(rng, faker, numRecords);
    records := data;
    ok := Save(store, Table(data, Row), Bucket, Key(now), Json);
  }
}
