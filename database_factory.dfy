/**
 * The database factories: DatabaseFactory picks a provider from the configuration once and keeps
 * it; the Postgres provider builds each repository once and keeps it in a cache.
 */
module DatabaseFactory {
  import opened Wrappers
  import opened Errors
  import opened Config
  import opened Database
  import opened PostgresUserMapper
  import opened Repositories

  datatype RepositoryType = UserRepositoryType | AudioRepositoryType

  /** The enum value of each repository type. */
  function RepositoryTypeName(repo: RepositoryType): (s: string)
    ensures repo == UserRepositoryType ==> s == "user"
    ensures repo == AudioRepositoryType ==> s == "audio"
  {
    match repo
    case UserRepositoryType => "user"
    case AudioRepositoryType => "audio"
  }

  /** The values of the database host enum. */
  const DatabaseHosts: seq<string> := ["postgres"]
  const PostgresHost := "postgres"
  const DatabaseTypeKey := "database.type"
  const InvalidDatabaseMessage := "Invalid 'database' environment variable."
  const PoolNotReadyMessage := "Postgres connection pool is not initialized yet."

  function NotImplementedMessage(repo: RepositoryType): string {
    "Repository not implemented (" + RepositoryTypeName(repo) + ")"
  }

  /** `isValidDbHost`: the string is one of the enum's values. */
  function IsValidDbHost(dbHost: string): (b: bool)
    ensures b <==> dbHost in DatabaseHosts
    ensures b <==> dbHost == PostgresHost
  {
    exists i :: 0 <= i < |DatabaseHosts| && dbHost == DatabaseHosts[i]
  }

  class PostgresRepositoryFactory {
    var repositoryCache: map<RepositoryType, UserRepository>
    /** The validator the user mapper of every built repository uses. */
    const validateUser: PostgresUser -> seq<string>

    constructor (validateUser: PostgresUser -> seq<string>)
      ensures repositoryCache == map[] && this.validateUser == validateUser
    {
      repositoryCache := map[];
      this.validateUser := validateUser;
    }

    /** Only the user repository is ever cached. */
    predicate Valid()
      reads this
    {
      AudioRepositoryType !in repositoryCache
    }

    method GetRepo(repo: RepositoryType, pool: Database?) returns (r: Result<UserRepository, Exception>)
      requires Valid()
      modifies this
      ensures Valid()
      ensures repo in old(repositoryCache) ==> r == Success(old(repositoryCache)[repo]) && repositoryCache == old(repositoryCache)
      ensures repo !in old(repositoryCache) && pool == null
              ==> r == Failure(Error(PoolNotReadyMessage)) && repositoryCache == old(repositoryCache)
      ensures repo !in old(repositoryCache) && pool != null && repo == AudioRepositoryType
              ==> r == Failure(Error(NotImplementedMessage(repo))) && repositoryCache == old(repositoryCache)
      ensures repo !in old(repositoryCache) && pool != null && repo == UserRepositoryType
              ==> r.Success? && fresh(r.value) && r.value.db == pool && r.value.validate == validateUser
                  && repositoryCache == old(repositoryCache)[repo := r.value]
      ensures forall k :: k in old(repositoryCache) ==> k in repositoryCache && repositoryCache[k] == old(repositoryCache)[k]
    {
      r := GetRepository(repo, pool);
    }

    /** `_getRepository`. */
    method GetRepository(repo: RepositoryType, pool: Database?) returns (r: Result<UserRepository, Exception>)
      requires Valid()
      modifies this
      ensures Valid()
      ensures repo in old(repositoryCache) ==> r == Success(old(repositoryCache)[repo]) && repositoryCache == old(repositoryCache)
      ensures repo !in old(repositoryCache) && pool == null
              ==> r == Failure(Error(PoolNotReadyMessage)) && repositoryCache == old(repositoryCache)
      ensures repo !in old(repositoryCache) && pool != null && repo == AudioRepositoryType
              ==> r == Failure(Error(NotImplementedMessage(repo))) && repositoryCache == old(repositoryCache)
      ensures repo !in old(repositoryCache) && pool != null && repo == UserRepositoryType
              ==> r.Success? && fresh(r.value) && r.value.db == pool && r.value.validate == validateUser
                  && repositoryCache == old(repositoryCache)[repo := r.value]
      ensures forall k :: k in old(repositoryCache) ==> k in repositoryCache && repositoryCache[k] == old(repositoryCache)[k]
    {
      if repo in repositoryCache {
        return Success(repositoryCache[repo]);
      }
      if pool == null {
        return Failure(Error(PoolNotReadyMessage));
      }
      var repository: UserRepository;
      match repo {
        case UserRepositoryType =>
          repository := new UserRepository(pool, validateUser);
        case AudioRepositoryType =>
          return Failure(Error(NotImplementedMessage(repo)));
      }
      repositoryCache := repositoryCache[repo := repository];
      r := Success(repository);
    }
  }

  class DatabaseFactory {
    const postgresRepositoryFactory: PostgresRepositoryFactory
    const providerMap: map<string, PostgresRepositoryFactory>
    /** The selected provider; `null` stands for the field's initial `undefined`. */
    var repositoryFactory: PostgresRepositoryFactory?
    /** How many times the configuration has been read. */
    ghost var configReads: nat

    constructor (postgresRepositoryFactory: PostgresRepositoryFactory)
      ensures this.postgresRepositoryFactory == postgresRepositoryFactory
      ensures providerMap == map[PostgresHost := postgresRepositoryFactory]
      ensures repositoryFactory == null && configReads == 0
    {
      this.postgresRepositoryFactory := postgresRepositoryFactory;
      providerMap := map[PostgresHost := postgresRepositoryFactory];
      repositoryFactory := null;
      configReads := 0;
    }

    /** Every host in the provider map has a provider, and the one selected came from it. */
    predicate Valid()
      reads this
    {
      PostgresHost in providerMap
      && (repositoryFactory == null || repositoryFactory in providerMap.Values)
    }

    /** `_getProviderFactory`. */
    method GetProviderFactory(settings: Settings) returns (r: Result<PostgresRepositoryFactory, Exception>)
      requires Valid()
      modifies this
      ensures Valid()
      ensures old(repositoryFactory) != null
              ==> r == Success(old(repositoryFactory)) && repositoryFactory == old(repositoryFactory)
                  && configReads == old(configReads)
      ensures old(repositoryFactory) == null ==> configReads == old(configReads) + 1
      ensures old(repositoryFactory) == null && DatabaseTypeKey in settings && !IsValidDbHost(settings[DatabaseTypeKey])
              ==> r == Failure(Error(InvalidDatabaseMessage)) && repositoryFactory == null
      ensures old(repositoryFactory) == null && DatabaseTypeKey !in settings
              ==> r == Success(providerMap[PostgresHost]) && repositoryFactory == r.value
      ensures old(repositoryFactory) == null && DatabaseTypeKey in settings && IsValidDbHost(settings[DatabaseTypeKey])
              ==> r == Success(providerMap[settings[DatabaseTypeKey]]) && repositoryFactory == r.value
    {
      if repositoryFactory != null {
        return Success(repositoryFactory);
      }
      var dbProviderConfig := Get(settings, DatabaseTypeKey);
      configReads := configReads + 1;
      if dbProviderConfig.Some? && !IsValidDbHost(dbProviderConfig.value) {
        return Failure(Error(InvalidDatabaseMessage));
      }
      var provider: PostgresRepositoryFactory;
      if dbProviderConfig.None? {
        provider := providerMap[PostgresHost];
      } else {
        provider := providerMap[dbProviderConfig.value];
      }
      repositoryFactory := provider;
      r := Success(provider);
    }

    /** `getRepository`: the selected provider's answer for `repo`. */
    method GetRepository(repo: RepositoryType, settings: Settings, pool: Database?) returns (r: Result<UserRepository, Exception>)
      requires Valid() && postgresRepositoryFactory.Valid()
      requires providerMap.Values == {postgresRepositoryFactory}
      modifies this, postgresRepositoryFactory
      ensures Valid() && postgresRepositoryFactory.Valid()
      ensures old(repositoryFactory) == null && DatabaseTypeKey in settings && !IsValidDbHost(settings[DatabaseTypeKey])
              ==> r == Failure(Error(InvalidDatabaseMessage)) && postgresRepositoryFactory.repositoryCache == old(postgresRepositoryFactory.repositoryCache)
      ensures repositoryFactory != null ==> repositoryFactory == postgresRepositoryFactory
      ensures var cache := old(postgresRepositoryFactory.repositoryCache);
              repositoryFactory != null && repo in cache ==> r == Success(cache[repo])
      ensures var cache := old(postgresRepositoryFactory.repositoryCache);
              repositoryFactory != null && repo !in cache && repo == UserRepositoryType && pool != null
              ==> r.Success? && fresh(r.value) && r.value.db == pool
                  && postgresRepositoryFactory.repositoryCache == cache[repo := r.value]
    ensures var cache := old(postgresRepositoryFactory.repositoryCache);
              repositoryFactory != null && repo !in cache && pool == null
              ==> r == Failure(Error(PoolNotReadyMessage)) && postgresRepositoryFactory.repositoryCache == cache
    ensures var cache := old(postgresRepositoryFactory.repositoryCache);
              repositoryFactory != null && repo !in cache && pool != null && repo == AudioRepositoryType
              ==> r == Failure(Error(NotImplementedMessage(repo))) && postgresRepositoryFactory.repositoryCache == cache
    {
      var providerFactory := GetProviderFactory(settings);
      if providerFactory.Failure? {
        return Failure(providerFactory.error);
      }
      r := providerFactory.value.GetRepo(repo, pool);
    }
  }
}
